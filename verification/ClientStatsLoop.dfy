/**
 The loop that reports the SDK's stage times: take, build a batch, send it, and put back what did not go out.

 Frames and commands are timed by other threads while the loop runs, and a new connection can begin at any
 point, so every tick carries what happens between the loop's locked steps. The account kept here is per
 track and stage (or per message stage): what was timed is in an accepted batch, or still in the totals.
 */
module ClientStatsLoop {
  import opened Prelude
  import opened StageTotals

  /** One track's reading: what the engine's report named, and the SDK stages added to it. */
  datatype TrackStat = TrackStat(track: string, sdk: map<FrameStage, Reading>)

  /** A batch the channel accepted. */
  datatype Sent = Sent(tracks: seq<TrackStat>, messages: map<MessageStage, Reading>, connectTime: Option<real>)

  // ----- adding the SDK's stages to the readings -----

  function StatTime(stats: seq<TrackStat>, k: FrameKey): real {
    if stats == [] then 0.0
    else StatTime(stats[..|stats| - 1], k) + Of(stats[|stats| - 1], k).ms
  }

  function StatCount(stats: seq<TrackStat>, k: FrameKey): nat {
    if stats == [] then 0
    else StatCount(stats[..|stats| - 1], k) + Of(stats[|stats| - 1], k).count
  }

  function Of(stat: TrackStat, k: FrameKey): Reading {
    if stat.track == k.0 then Get(stat.sdk, k.1) else ZERO
  }

  /** The stages of one track, and those of the others. */
  function StagesOf(sdk: map<FrameKey, Reading>, track: string): (r: map<FrameStage, Reading>)
    ensures forall s :: s in r <==> (track, s) in sdk
    ensures forall s :: s in r ==> r[s] == sdk[(track, s)]
  {
    map k | k in sdk && k.0 == track :: k.1 := sdk[k]
  }

  function WithoutTrack(sdk: map<FrameKey, Reading>, track: string): map<FrameKey, Reading> {
    map k | k in sdk && k.0 != track :: sdk[k]
  }

  predicate Fresh(stats: seq<TrackStat>) {
    forall i :: 0 <= i < |stats| ==> stats[i].sdk == map[]
  }

  /**
   Every stage goes to the first reading of its track, or is returned for want of one: per key, what the
   readings carry plus what is returned is what was given, for counts and for times.
   */
  method AddSdkStages(stats: seq<TrackStat>, sdk: map<FrameKey, Reading>)
    returns (r: seq<TrackStat>, unmatched: map<FrameKey, Reading>)
    requires Fresh(stats)
    ensures |r| == |stats| && forall i :: 0 <= i < |r| ==> r[i].track == stats[i].track
    ensures forall k :: k in unmatched <==> k in sdk && forall i :: 0 <= i < |stats| ==> stats[i].track != k.0
    ensures forall k :: k in unmatched ==> unmatched[k] == sdk[k]
    ensures forall k :: StatTime(r, k) + Get(unmatched, k).ms == Get(sdk, k).ms
    ensures forall k :: StatCount(r, k) + Get(unmatched, k).count == Get(sdk, k).count
  {
    unmatched := sdk;
    r := [];
    for n := 0 to |stats|
      invariant |r| == n && forall i :: 0 <= i < n ==> r[i].track == stats[i].track
      invariant forall k :: k in unmatched <==> k in sdk && forall i :: 0 <= i < n ==> stats[i].track != k.0
      invariant forall k :: k in unmatched ==> unmatched[k] == sdk[k]
      invariant forall k :: StatTime(r, k) + Get(unmatched, k).ms == Get(sdk, k).ms
      invariant forall k :: StatCount(r, k) + Get(unmatched, k).count == Get(sdk, k).count
    {
      var stat := stats[n].(sdk := StagesOf(unmatched, stats[n].track));
      ghost var r0, u0 := r, unmatched;
      r := r + [stat];
      unmatched := WithoutTrack(unmatched, stats[n].track);
      forall k
        ensures StatTime(r, k) + Get(unmatched, k).ms == Get(sdk, k).ms
        ensures StatCount(r, k) + Get(unmatched, k).count == Get(sdk, k).count
      {
        StatSnoc(r0, stat, k);
        assert StatTime(r0, k) + Get(u0, k).ms == Get(sdk, k).ms;
        assert StatCount(r0, k) + Get(u0, k).count == Get(sdk, k).count;
      }
    }
  }

  lemma StatSnoc(stats: seq<TrackStat>, stat: TrackStat, k: FrameKey)
    ensures StatTime(stats + [stat], k) == StatTime(stats, k) + Of(stat, k).ms
    ensures StatCount(stats + [stat], k) == StatCount(stats, k) + Of(stat, k).count
  {
    assert (stats + [stat])[..|stats|] == stats;
  }

  // ----- the account -----

  /** What the accepted batches carry under one key. */
  function FramesSentTime(sent: seq<Sent>, k: FrameKey): real {
    if sent == [] then 0.0 else FramesSentTime(sent[..|sent| - 1], k) + StatTime(sent[|sent| - 1].tracks, k)
  }

  function FramesSent(sent: seq<Sent>, k: FrameKey): nat {
    if sent == [] then 0 else FramesSent(sent[..|sent| - 1], k) + StatCount(sent[|sent| - 1].tracks, k)
  }

  function MessagesSentTime(sent: seq<Sent>, k: MessageStage): real {
    if sent == [] then 0.0 else MessagesSentTime(sent[..|sent| - 1], k) + Get(sent[|sent| - 1].messages, k).ms
  }

  function MessagesSent(sent: seq<Sent>, k: MessageStage): nat {
    if sent == [] then 0 else MessagesSent(sent[..|sent| - 1], k) + Get(sent[|sent| - 1].messages, k).count
  }

  /** Under one key: timed = in the totals + in the loop's hands + carried by accepted batches. */
  predicate BalancedAt<K(==)>(k: K, timed: seq<Measure<K>>, totals: map<K, Reading>, hand: map<K, Reading>,
                              sentMs: real, sent: nat)
  {
    && Time(timed, k) == Get(totals, k).ms + Get(hand, k).ms + sentMs
    && Count(timed, k) == Get(totals, k).count + Get(hand, k).count + sent
  }

  /** Under one key: nothing is carried twice, even once the connection has moved on. */
  predicate NotTwiceAt<K(==)>(k: K, timed: seq<Measure<K>>, hand: map<K, Reading>, sent: nat) {
    Get(hand, k).count + sent <= Count(timed, k)
  }

  lemma TimedBalances<K>(k: K, timed: seq<Measure<K>>, m: Measure<K>, totals: map<K, Reading>, hand: map<K, Reading>,
                         sentMs: real, sent: nat)
    requires BalancedAt(k, timed, totals, hand, sentMs, sent) && m.ms >= 0.0
    ensures BalancedAt(k, timed + [m], AddTo(totals, m.key, Finite(m.ms), 1), hand, sentMs, sent)
  {
    SumAppend(timed, [m], k);
    assert [m][1..] == [];
    assert Time([m], k) == if m.key == k then m.ms else 0.0;
    assert Count([m], k) == if m.key == k then 1 else 0;
  }

  /** The whole account of one store, for the reporter of connection `mine`, while `current` is running. */
  ghost predicate Account<K(!new)>(known: K -> bool, mine: nat, current: nat, timed: seq<Measure<K>>,
                                   totals: map<K, Reading>, hand: map<K, Reading>, sentMs: K -> real, sent: K -> nat)
  {
    && Counting(totals) && Counting(hand) && mine <= current
    && (forall k :: k in totals ==> known(k)) && (forall k :: k in hand ==> known(k))
    && (forall k :: NotTwiceAt(k, timed, hand, sent(k)))
    && (mine == current ==> forall k :: BalancedAt(k, timed, totals, hand, sentMs(k), sent(k)))
  }

  /** A measurement of any connection: counted, and entered in the account, only if it is the current one's. */
  lemma TimingKeepsAccount<K(!new)>(known: K -> bool, mine: nat, current: nat, timed: seq<Measure<K>>, m: Measure<K>,
                                    totals: map<K, Reading>, hand: map<K, Reading>, sentMs: K -> real, sent: K -> nat)
    requires Account(known, mine, current, timed, totals, hand, sentMs, sent)
    requires m.ms >= 0.0 && m.tag == current && known(m.key)
    ensures Account(known, mine, current, if mine == current then timed + [m] else timed,
                    AddTo(totals, m.key, Finite(m.ms), 1), hand, sentMs, sent)
  {
    if mine == current {
      forall k ensures BalancedAt(k, timed + [m], AddTo(totals, m.key, Finite(m.ms), 1), hand, sentMs(k), sent(k)) {
        TimedBalances(k, timed, m, totals, hand, sentMs(k), sent(k));
      }
      forall k ensures NotTwiceAt(k, timed + [m], hand, sent(k)) {
      }
    }
  }

  lemma BeginKeepsAccount<K(!new)>(known: K -> bool, mine: nat, current: nat, timed: seq<Measure<K>>,
                                   totals: map<K, Reading>, hand: map<K, Reading>, sentMs: K -> real, sent: K -> nat)
    requires Account(known, mine, current, timed, totals, hand, sentMs, sent)
    ensures Account(known, mine, current + 1, timed, map[], hand, sentMs, sent)
  {
  }

  lemma TakingKeepsAccount<K(!new)>(known: K -> bool, mine: nat, timed: seq<Measure<K>>,
                                    totals: map<K, Reading>, sentMs: K -> real, sent: K -> nat)
    requires Account(known, mine, mine, timed, totals, map[], sentMs, sent)
    ensures Account(known, mine, mine, timed, map[], totals, sentMs, sent)
  {
    forall k
      ensures BalancedAt(k, timed, map[], totals, sentMs(k), sent(k))
      ensures NotTwiceAt(k, timed, totals, sent(k))
    {
      assert BalancedAt(k, timed, totals, map[], sentMs(k), sent(k));
    }
  }

  /** Putting back what is in hand, whether or not the connection is still the same. */
  lemma ReturningKeepsAccount<K(!new)>(known: K -> bool, mine: nat, current: nat, timed: seq<Measure<K>>,
                                       totals: map<K, Reading>, hand: map<K, Reading>,
                                       sentMs: K -> real, sent: K -> nat)
    requires Account(known, mine, current, timed, totals, hand, sentMs, sent)
    ensures Account(known, mine, current, timed,
                    if mine == current then GivenBack(known, totals, hand) else totals, map[], sentMs, sent)
  {
    forall k ensures NotTwiceAt(k, timed, map[], sent(k)) {
      assert NotTwiceAt(k, timed, hand, sent(k));
    }
    if mine == current {
      forall k ensures BalancedAt(k, timed, GivenBack(known, totals, hand), map[], sentMs(k), sent(k)) {
      }
    }
  }

  /** Handing part of what is in hand to an accepted batch. */
  lemma SendingKeepsAccount<K(!new)>(known: K -> bool, mine: nat, current: nat, timed: seq<Measure<K>>,
                                     totals: map<K, Reading>, hand: map<K, Reading>, rest: map<K, Reading>,
                                     sentMs: K -> real, sent: K -> nat, sentMs': K -> real, sent': K -> nat)
    requires Account(known, mine, current, timed, totals, hand, sentMs, sent)
    requires forall k :: k in rest ==> k in hand && rest[k] == hand[k]
    requires forall k :: sentMs'(k) + Get(rest, k).ms == sentMs(k) + Get(hand, k).ms
    requires forall k :: sent'(k) + Get(rest, k).count == sent(k) + Get(hand, k).count
    ensures Account(known, mine, current, timed, totals, rest, sentMs', sent')
  {
    forall k ensures NotTwiceAt(k, timed, rest, sent'(k)) {
      assert NotTwiceAt(k, timed, hand, sent(k));
    }
    if mine == current {
      forall k ensures BalancedAt(k, timed, totals, rest, sentMs'(k), sent'(k)) {
        assert BalancedAt(k, timed, totals, hand, sentMs(k), sent(k));
      }
    }
  }

  // ----- the loop -----

  /** What other threads do to the two stores. */
  datatype Noise =
    | FrameTimed(tag: nat, track: string, stage: FrameStage, ms: Float)
    | CommandTimed(tag: nat, message: MessageStage, ms: Float)
    | FramesBegin
    | CommandsBegin

  /** With known stage names: a reading under any other name would not survive being put back. */
  predicate KnownNoise(n: Noise) {
    match n
    case FrameTimed(_, track, stage, _) => KnownFrame((track, stage))
    case CommandTimed(_, stage, _) => KnownMessage(stage)
    case _ => true
  }

  /** One turn of the loop: the answers it gets, and what happens between its steps. */
  datatype Tick = Tick(
    current: bool,                // the connection is still this reporter's when the sleep ends
    engineRead: bool,             // the engine's stats could be read
    stillCurrent: bool,           // and still its own after that await
    connectTime: Option<real>,
    tracks: seq<string>,          // the tracks the engine has a reading for
    metrics: bool,                // whether there are connection metrics besides the connect time
    engineStages: bool,           // whether the engine has message stages
    accepted: bool,               // whether the channel takes the batch
    asleep: seq<Noise>, betweenTakes: seq<Noise>, building: seq<Noise>, sending: seq<Noise>, returning: seq<Noise>)

  predicate KnownTick(t: Tick) {
    forall n :: n in t.asleep + t.betweenTakes + t.building + t.sending + t.returning ==> KnownNoise(n)
  }

  function ConnectTimes(sent: seq<Sent>): nat {
    if sent == [] then 0
    else ConnectTimes(sent[..|sent| - 1]) + if sent[|sent| - 1].connectTime.Some? then 1 else 0
  }

  function FrameMs(sent: seq<Sent>): FrameKey -> real { k => FramesSentTime(sent, k) }

  function FrameCounts(sent: seq<Sent>): FrameKey -> nat { k => FramesSent(sent, k) }

  function MessageMs(sent: seq<Sent>): MessageStage -> real { k => MessagesSentTime(sent, k) }

  function MessageCounts(sent: seq<Sent>): MessageStage -> nat { k => MessagesSent(sent, k) }

  /** What was timed since the connection began, before its reporter first ran, is all in the totals. */
  lemma TimedBeforehand<K(!new)>(known: K -> bool, mine: nat, timed: seq<Measure<K>>, totals: map<K, Reading>,
                                 sentMs: K -> real, sent: K -> nat)
    requires Tallies(totals, timed) && Tagged(timed, mine, known)
    requires forall k :: sentMs(k) == 0.0 && sent(k) == 0
    ensures Account(known, mine, mine, timed, totals, map[], sentMs, sent)
  {
    forall k
      ensures BalancedAt(k, timed, totals, map[], sentMs(k), sent(k))
      ensures k in totals ==> known(k)
    {
      assert Get(totals, k) == Totalled(timed, k);
      if k in totals && !known(k) {
        UnknownSumsToNothing(known, timed, mine, k);
        assert false;
      }
    }
  }

  // ----- what was timed -----

  /** The connection the frames belong to after this noise, and the one the commands do. */
  function FrameGeneration(noise: seq<Noise>, current: nat): nat {
    if noise == [] then current
    else FrameGeneration(noise[..|noise| - 1], current) + if noise[|noise| - 1].FramesBegin? then 1 else 0
  }

  function CommandGeneration(noise: seq<Noise>, current: nat): nat {
    if noise == [] then current
    else CommandGeneration(noise[..|noise| - 1], current) + if noise[|noise| - 1].CommandsBegin? then 1 else 0
  }

  /** The frame timed, if it is connection `mine`'s and that is the current one. */
  function FrameAt(n: Noise, mine: nat, current: nat): seq<Measure<FrameKey>> {
    if n.FrameTimed? && n.tag == mine == current && Measured(n.ms)
    then [Measure(n.tag, (n.track, n.stage), n.ms.value)] else []
  }

  function CommandAt(n: Noise, mine: nat, current: nat): seq<Measure<MessageStage>> {
    if n.CommandTimed? && n.tag == mine == current && Measured(n.ms)
    then [Measure(n.tag, n.message, n.ms.value)] else []
  }

  /** The frames of connection `mine` this noise times while it is current, in order; `current` is at its start. */
  function FramesIn(noise: seq<Noise>, mine: nat, current: nat): seq<Measure<FrameKey>> {
    if noise == [] then []
    else
      var init := noise[..|noise| - 1];
      FramesIn(init, mine, current) + FrameAt(noise[|noise| - 1], mine, FrameGeneration(init, current))
  }

  function CommandsIn(noise: seq<Noise>, mine: nat, current: nat): seq<Measure<MessageStage>> {
    if noise == [] then []
    else
      var init := noise[..|noise| - 1];
      CommandsIn(init, mine, current) + CommandAt(noise[|noise| - 1], mine, CommandGeneration(init, current))
  }

  /** The logs of one reporter, and the connections its two stores are at. */
  datatype Logs = Logs(
    frames: seq<Measure<FrameKey>>, commands: seq<Measure<MessageStage>>, frameGeneration: nat, commandGeneration: nat)

  function Noted(l: Logs, n: Noise, mine: nat, mineCommands: nat): Logs {
    Logs(l.frames + FrameAt(n, mine, l.frameGeneration), l.commands + CommandAt(n, mineCommands, l.commandGeneration),
         l.frameGeneration + (if n.FramesBegin? then 1 else 0),
         l.commandGeneration + (if n.CommandsBegin? then 1 else 0))
  }

  /** The logs after this noise. */
  function Later(l: Logs, noise: seq<Noise>, mine: nat, mineCommands: nat): Logs {
    if noise == [] then l
    else Noted(Later(l, noise[..|noise| - 1], mine, mineCommands), noise[|noise| - 1], mine, mineCommands)
  }

  lemma {:induction false} LaterConcat(l: Logs, a: seq<Noise>, b: seq<Noise>, mine: nat, mineCommands: nat)
    ensures Later(l, a + b, mine, mineCommands) == Later(Later(l, a, mine, mineCommands), b, mine, mineCommands)
    decreases |b|
  {
    if b == [] {
      assert a + b == a;
    } else {
      LaterConcat(l, a, b[..|b| - 1], mine, mineCommands);
      assert (a + b)[..|a + b| - 1] == a + b[..|b| - 1];
    }
  }

  /** Exactly what the noise times for this reporter's connection is added to the logs. */
  lemma {:induction false} LaterAdds(l: Logs, noise: seq<Noise>, mine: nat, mineCommands: nat)
    ensures var l' := Later(l, noise, mine, mineCommands);
            && l'.frames == l.frames + FramesIn(noise, mine, l.frameGeneration)
            && l'.commands == l.commands + CommandsIn(noise, mineCommands, l.commandGeneration)
            && l'.frameGeneration == FrameGeneration(noise, l.frameGeneration)
            && l'.commandGeneration == CommandGeneration(noise, l.commandGeneration)
    decreases |noise|
  {
    if noise != [] {
      LaterAdds(l, noise[..|noise| - 1], mine, mineCommands);
    }
  }

  // ----- one turn -----

  /** How many of the two stores the turn gets to take from: a store refuses when its connection is not this one. */
  function Takes(t: Tick, awake: Logs, mine: nat, mineCommands: nat): nat {
    if awake.frameGeneration != mine then 0
    else if Later(awake, t.betweenTakes, mine, mineCommands).commandGeneration != mineCommands then 1
    else 2
  }

  predicate Reads(t: Tick) {
    t.current && t.engineRead && t.stillCurrent
  }

  /** The part of a tick's noise that comes about, by how far the turn gets. */
  function Happened(t: Tick, takes: nat, empty: bool): seq<Noise> {
    if Reads(t) then t.asleep + Working(t, takes, empty) else t.asleep
  }

  function Working(t: Tick, takes: nat, empty: bool): seq<Noise> {
    if takes == 0 then []
    else if takes == 1 then t.betweenTakes
    else t.betweenTakes + t.building + AtTheEnd(t, empty)
  }

  function AtTheEnd(t: Tick, empty: bool): seq<Noise> {
    if empty then t.returning else if t.accepted then t.sending else t.sending + t.returning
  }

  /** Whether the turn puts a batch on the channel. */
  predicate Sends(t: Tick, takes: nat, empty: bool) {
    Reads(t) && takes == 2 && !empty && t.accepted
  }

  predicate GoesOn(t: Tick, takes: nat) {
    t.current && (!t.engineRead || (t.stillCurrent && takes == 2))
  }

  /** One turn as it went. */
  datatype Turn = Turn(takes: nat, empty: bool)

  /** All noise of a run of turns, in order, and the batches they sent. */
  function AllNoise(ticks: seq<Tick>, turns: seq<Turn>): seq<Noise>
    requires |turns| <= |ticks|
  {
    if turns == [] then []
    else
      var n := |turns| - 1;
      AllNoise(ticks, turns[..n]) + Happened(ticks[n], turns[n].takes, turns[n].empty)
  }

  /** Every turn took what the connections current by then let it take, and was empty only with nothing to report. */
  predicate Went(ticks: seq<Tick>, turns: seq<Turn>, was: Logs, mine: nat, mineCommands: nat)
    requires |turns| <= |ticks|
  {
    turns == [] ||
    (var n := |turns| - 1;
     var asleep := Later(was, AllNoise(ticks, turns[..n]), mine, mineCommands);
     && Went(ticks, turns[..n], was, mine, mineCommands)
     && turns[n].takes == Takes(ticks[n], Later(asleep, ticks[n].asleep, mine, mineCommands), mine, mineCommands)
     && (turns[n].empty ==> ticks[n].tracks == [] && !ticks[n].metrics && !ticks[n].engineStages))
  }

  function Batches(ticks: seq<Tick>, turns: seq<Turn>): nat
    requires |turns| <= |ticks|
  {
    if turns == [] then 0
    else
      var n := |turns| - 1;
      Batches(ticks, turns[..n]) + if Sends(ticks[n], turns[n].takes, turns[n].empty) then 1 else 0
  }

  predicate Named(tracks: seq<string>, stats: seq<TrackStat>) {
    |stats| == |tracks| && forall i :: 0 <= i < |stats| ==> stats[i].track == tracks[i]
  }

  class Reporter {
    const stages: StageTimes
    const messages: MessageTimes
    const generation: nat
    const messageGeneration: nat
    var sentConnectTime: bool
    var sentEnvironment: bool
    var accepted: seq<Sent>
    ghost var frames: seq<Measure<FrameKey>>          // counted under `generation`
    ghost var commands: seq<Measure<MessageStage>>    // counted under `messageGeneration`

    /** Frames and commands of this connection may already have been timed. */
    constructor (stages: StageTimes, messages: MessageTimes,
                 ghost timedFrames: seq<Measure<FrameKey>>, ghost timedCommands: seq<Measure<MessageStage>>)
      requires Tallies(stages.totals, timedFrames) && Tagged(timedFrames, stages.generation, KnownFrame)
      requires Tallies(messages.totals, timedCommands) && Tagged(timedCommands, messages.generation, KnownMessage)
      ensures this.stages == stages && this.messages == messages
      ensures generation == stages.generation && messageGeneration == messages.generation
      ensures accepted == [] && frames == timedFrames && commands == timedCommands
      ensures Settled() && !sentConnectTime
    {
      this.stages, this.messages := stages, messages;
      generation, messageGeneration := stages.generation, messages.generation;
      sentConnectTime, sentEnvironment, accepted := false, false, [];
      frames, commands := timedFrames, timedCommands;
      TimedBeforehand(KnownFrame, stages.generation, timedFrames, stages.totals, FrameMs([]), FrameCounts([]));
      TimedBeforehand(KnownMessage, messages.generation, timedCommands, messages.totals,
                      MessageMs([]), MessageCounts([]));
    }

    ghost predicate FramesKept(hand: map<FrameKey, Reading>)
      reads this, stages
    {
      Account(KnownFrame, generation, stages.generation, frames, stages.totals, hand,
              FrameMs(accepted), FrameCounts(accepted))
    }

    ghost predicate CommandsKept(hand: map<MessageStage, Reading>)
      reads this, messages
    {
      Account(KnownMessage, messageGeneration, messages.generation, commands, messages.totals, hand,
              MessageMs(accepted), MessageCounts(accepted))
    }

    /** Nothing in hand. */
    ghost predicate Settled()
      reads this, stages, messages
    {
      FramesKept(map[]) && CommandsKept(map[]) && ConnectTimes(accepted) == if sentConnectTime then 1 else 0
    }

    ghost function Now(): Logs
      reads this, stages, messages
    {
      Logs(frames, commands, stages.generation, messages.generation)
    }

    method Happens(noise: seq<Noise>, ghost f: map<FrameKey, Reading>, ghost m: map<MessageStage, Reading>)
      requires FramesKept(f) && CommandsKept(m) && forall n :: n in noise ==> KnownNoise(n)
      modifies stages, messages, this`frames, this`commands
      ensures FramesKept(f) && CommandsKept(m)
      ensures Now() == Later(old(Now()), noise, generation, messageGeneration)
    {
      for i := 0 to |noise|
        invariant FramesKept(f) && CommandsKept(m)
        invariant Now() == Later(old(Now()), noise[..i], generation, messageGeneration)
      {
        assert noise[i] in noise;
        HappensOnce(noise[i], f, m);
        assert noise[..i + 1] == noise[..i] + [noise[i]];
      }
      assert noise[..|noise|] == noise;
    }

    method HappensOnce(n: Noise, ghost f: map<FrameKey, Reading>, ghost m: map<MessageStage, Reading>)
      requires FramesKept(f) && CommandsKept(m) && KnownNoise(n)
      modifies stages, messages, this`frames, this`commands
      ensures FramesKept(f) && CommandsKept(m)
      ensures Now() == Noted(old(Now()), n, generation, messageGeneration)
    {
      match n
      case FrameTimed(_, _, _, _) =>
        FrameHappens(n, f);
      case CommandTimed(_, _, _) =>
        CommandHappens(n, m);
      case FramesBegin =>
        BeginKeepsAccount(KnownFrame, generation, stages.generation, frames, stages.totals, f,
                          FrameMs(accepted), FrameCounts(accepted));
        stages.BeginConnection();
      case CommandsBegin =>
        BeginKeepsAccount(KnownMessage, messageGeneration, messages.generation, commands, messages.totals, m,
                          MessageMs(accepted), MessageCounts(accepted));
        messages.BeginConnection();
    }

    method FrameHappens(n: Noise, ghost f: map<FrameKey, Reading>)
      requires FramesKept(f) && KnownNoise(n) && n.FrameTimed?
      modifies stages`totals, this`frames
      ensures FramesKept(f) && frames == old(frames) + FrameAt(n, generation, stages.generation)
    {
      if n.tag == stages.generation && Measured(n.ms) {
        ghost var timed := Measure(n.tag, (n.track, n.stage), n.ms.value);
        TimingKeepsAccount(KnownFrame, generation, stages.generation, frames, timed, stages.totals, f,
                           FrameMs(accepted), FrameCounts(accepted));
        frames := if generation == n.tag then frames + [timed] else frames;
      }
      stages.AddFrom(n.tag, n.track, n.stage, n.ms);
    }

    method CommandHappens(n: Noise, ghost m: map<MessageStage, Reading>)
      requires CommandsKept(m) && KnownNoise(n) && n.CommandTimed?
      modifies messages`totals, this`commands
      ensures CommandsKept(m) && commands == old(commands) + CommandAt(n, messageGeneration, messages.generation)
    {
      if n.tag == messages.generation && Measured(n.ms) {
        ghost var timed := Measure(n.tag, n.message, n.ms.value);
        TimingKeepsAccount(KnownMessage, messageGeneration, messages.generation, commands, timed, messages.totals, m,
                           MessageMs(accepted), MessageCounts(accepted));
        commands := if messageGeneration == n.tag then commands + [timed] else commands;
      }
      messages.AddFrom(n.tag, n.message, n.ms);
    }

    /** Puts back what is in hand, with other threads at work between the two stores. */
    method GiveBackBoth(f: map<FrameKey, Reading>, m: map<MessageStage, Reading>, noise: seq<Noise>)
      requires FramesKept(f) && CommandsKept(m) && forall n :: n in noise ==> KnownNoise(n)
      modifies stages, messages, this`frames, this`commands
      ensures FramesKept(map[]) && CommandsKept(map[])
      ensures Now() == Later(old(Now()), noise, generation, messageGeneration)
    {
      GiveBackFrames(f, m);
      Happens(noise, map[], m);
      ReturningKeepsAccount(KnownMessage, messageGeneration, messages.generation, commands, messages.totals, m,
                            MessageMs(accepted), MessageCounts(accepted));
      messages.GiveBack(messageGeneration, m);
    }

    method GiveBackFrames(f: map<FrameKey, Reading>, ghost m: map<MessageStage, Reading>)
      requires FramesKept(f) && CommandsKept(m)
      modifies stages`totals
      ensures FramesKept(map[]) && CommandsKept(m) && Now() == old(Now())
    {
      ReturningKeepsAccount(KnownFrame, generation, stages.generation, frames, stages.totals, f,
                            FrameMs(accepted), FrameCounts(accepted));
      BatchIsCountable(stages.totals, f);
      stages.GiveBack(generation, f);
    }

    /**
     Takes this connection's readings from both stores, all of them, or puts back and stops. The noise is what comes
     between the two takes, and comes about only if the first succeeds.
     */
    method TakeBoth(noise: seq<Noise>) returns (taken: Option<(map<FrameKey, Reading>, map<MessageStage, Reading>)>)
      requires FramesKept(map[]) && CommandsKept(map[]) && forall n :: n in noise ==> KnownNoise(n)
      modifies stages, messages, this`frames, this`commands
      ensures match taken
              case None => FramesKept(map[]) && CommandsKept(map[])
              case Some((f, m)) =>
                FramesKept(f) && CommandsKept(m) && f == old(stages.totals) && messages.totals == map[]
      ensures Now() ==
              if old(stages.generation) != generation then old(Now())
              else Later(old(Now()), noise, generation, messageGeneration)
      ensures taken.Some? <==> old(stages.generation) == generation && messages.generation == messageGeneration
    {
      if stages.generation == generation {
        TakingKeepsAccount(KnownFrame, generation, frames, stages.totals, FrameMs(accepted), FrameCounts(accepted));
      }
      var f := stages.TakeFrom(generation);
      if f.None? {
        return None;
      }
      Happens(noise, f.value, map[]);
      if messages.generation == messageGeneration {
        TakingKeepsAccount(KnownMessage, messageGeneration, commands, messages.totals,
                           MessageMs(accepted), MessageCounts(accepted));
      }
      var m := messages.TakeFrom(messageGeneration);
      if m.None? {
        GiveBackFrames(f.value, map[]);
        return None;
      }
      return Some((f.value, m.value));
    }

    /** The channel took the batch: its stages are carried, those of unmatched tracks are not. */
    method Accept(batch: Sent, ghost f: map<FrameKey, Reading>, unmatched: map<FrameKey, Reading>)
      requires FramesKept(f) && CommandsKept(batch.messages)
      requires forall k :: k in unmatched ==> k in f && unmatched[k] == f[k]
      requires forall k :: StatTime(batch.tracks, k) + Get(unmatched, k).ms == Get(f, k).ms
      requires forall k :: StatCount(batch.tracks, k) + Get(unmatched, k).count == Get(f, k).count
      modifies this`accepted
      ensures accepted == old(accepted) + [batch]
      ensures FramesKept(unmatched) && CommandsKept(map[])
    {
      ghost var before, after := accepted, accepted + [batch];
      forall k, m ensures
          && FrameMs(after)(k) == FrameMs(before)(k) + StatTime(batch.tracks, k)
          && FrameCounts(after)(k) == FrameCounts(before)(k) + StatCount(batch.tracks, k)
          && MessageMs(after)(m) == MessageMs(before)(m) + Get(batch.messages, m).ms
          && MessageCounts(after)(m) == MessageCounts(before)(m) + Get(batch.messages, m).count {
      }
      SendingKeepsAccount(KnownFrame, generation, stages.generation, frames, stages.totals, f, unmatched,
                          FrameMs(before), FrameCounts(before), FrameMs(after), FrameCounts(after));
      SendingKeepsAccount(KnownMessage, messageGeneration, messages.generation, commands, messages.totals,
                          batch.messages, map[],
                          MessageMs(before), MessageCounts(before), MessageMs(after), MessageCounts(after));
      accepted := accepted + [batch];
    }

    /** The batch went out: its stages are carried, those of unmatched tracks put back. */
    method Carry(batch: Sent, f: map<FrameKey, Reading>, unmatched: map<FrameKey, Reading>, noise: seq<Noise>)
      requires FramesKept(f) && CommandsKept(batch.messages) && forall n :: n in noise ==> KnownNoise(n)
      requires ConnectTimes(accepted) == if sentConnectTime then 1 else 0
      requires sentConnectTime ==> batch.connectTime.None?
      requires forall k :: k in unmatched ==> k in f && unmatched[k] == f[k]
      requires forall k :: StatTime(batch.tracks, k) + Get(unmatched, k).ms == Get(f, k).ms
      requires forall k :: StatCount(batch.tracks, k) + Get(unmatched, k).count == Get(f, k).count
      modifies this, stages, messages
      ensures Settled() && accepted == old(accepted) + [batch]
      ensures sentConnectTime == (old(sentConnectTime) || batch.connectTime.Some?) && sentEnvironment
      ensures Now() == Later(old(Now()), noise, generation, messageGeneration)
    {
      Accept(batch, f, unmatched);
      Happens(noise, unmatched, map[]);
      GiveBackFrames(unmatched, map[]);
      sentConnectTime := sentConnectTime || batch.connectTime.Some?;
      sentEnvironment := true;
    }

    /** Sends the batch built from what was taken, and settles: carried, unmatched or put back. */
    method Report(t: Tick, f: map<FrameKey, Reading>, m: map<MessageStage, Reading>) returns (ghost empty: bool)
      requires FramesKept(f) && CommandsKept(m) && KnownTick(t)
      requires ConnectTimes(accepted) == if sentConnectTime then 1 else 0
      modifies this, stages, messages
      ensures Settled()
      ensures empty <==> && t.tracks == [] && !t.metrics && (old(sentConnectTime) || t.connectTime.None?)
                         && !t.engineStages && m == map[] && old(sentEnvironment)
      ensures Now() == Later(old(Now()), AtTheEnd(t, empty), generation, messageGeneration)
      ensures if empty || !t.accepted then accepted == old(accepted) else Added(old(accepted), old(sentConnectTime), t)
    {
      var connectTime := if sentConnectTime then None else t.connectTime;
      var readings := seq(|t.tracks|, i requires 0 <= i < |t.tracks| => TrackStat(t.tracks[i], map[]));
      var stats, unmatched := AddSdkStages(readings, f);
      if t.tracks == [] && !t.metrics && connectTime.None? && !t.engineStages && m == map[] && sentEnvironment {
        empty := true;
        GiveBackBoth(f, m, t.returning);
      } else if t.accepted {
        empty := false;
        Carry(Sent(stats, m, connectTime), f, unmatched, t.sending);
      } else {
        empty := false;
        LaterConcat(Now(), t.sending, t.returning, generation, messageGeneration);
        Happens(t.sending, f, m);
        GiveBackBoth(f, m, t.returning);
      }
    }

    /** One batch more, on the tick's tracks, with its connect time unless one went out before. */
    ghost predicate Added(before: seq<Sent>, sentBefore: bool, t: Tick)
      reads this
    {
      && |accepted| == |before| + 1 && accepted[..|before|] == before
      && Named(t.tracks, accepted[|before|].tracks)
      && accepted[|before|].connectTime == if sentBefore then None else t.connectTime
    }

    /** The part of a turn behind the engine's report; `false` ends the loop. */
    method TakeAndReport(t: Tick) returns (goOn: bool, ghost turn: Turn)
      requires Settled() && KnownTick(t)
      modifies this, stages, messages
      ensures Settled()
      ensures turn.takes == Takes(t, old(Now()), generation, messageGeneration) && (goOn <==> turn.takes == 2)
      ensures turn.empty ==> t.tracks == [] && !t.metrics && !t.engineStages && old(sentEnvironment)
      ensures Now() == Later(old(Now()), Working(t, turn.takes, turn.empty), generation, messageGeneration)
      ensures if turn.takes == 2 && !turn.empty && t.accepted then Added(old(accepted), old(sentConnectTime), t)
              else accepted == old(accepted)
    {
      ghost var was := Now();
      ghost var mine, mineCommands := generation, messageGeneration;
      var taken := TakeBoth(t.betweenTakes);
      if taken.None? {
        return false, Turn(Takes(t, was, mine, mineCommands), false);
      }
      var (f, m) := taken.value;
      Happens(t.building, f, m);
      LaterConcat(was, t.betweenTakes, t.building, mine, mineCommands);
      ghost var empty := Report(t, f, m);
      LaterConcat(was, t.betweenTakes + t.building, AtTheEnd(t, empty), mine, mineCommands);
      return true, Turn(2, empty);
    }

    /** One turn of the loop, from the end of the sleep; `false` ends the loop. */
    method OneTick(t: Tick) returns (goOn: bool, ghost turn: Turn)
      requires Settled() && KnownTick(t)
      modifies this, stages, messages
      ensures Settled()
      ensures turn.takes == Takes(t, Later(old(Now()), t.asleep, generation, messageGeneration),
                                  generation, messageGeneration)
      ensures turn.empty ==> t.tracks == [] && !t.metrics && !t.engineStages && old(sentEnvironment)
      ensures Now() == Later(old(Now()), Happened(t, turn.takes, turn.empty), generation, messageGeneration)
      ensures goOn <==> GoesOn(t, turn.takes)
      ensures if Sends(t, turn.takes, turn.empty) then Added(old(accepted), old(sentConnectTime), t)
              else accepted == old(accepted)
    {
      Happens(t.asleep, map[], map[]);
      turn := Turn(Takes(t, Now(), generation, messageGeneration), false);
      if !t.current {
        return false, turn;
      }
      if !t.engineRead {
        return true, turn;
      }
      if !t.stillCurrent {
        return false, turn;
      }
      goOn, turn := TakeAndReport(t);
      LaterConcat(old(Now()), t.asleep, Working(t, turn.takes, turn.empty), generation, messageGeneration);
    }

    /**
     `run_client_stats` over any number of turns. While the connection is current, every frame and command timed
     is carried by exactly one accepted batch or still in the totals, in counts and in times; nothing is ever
     carried twice; and the connect time rides at most one batch.
     */
    method Run(ticks: seq<Tick>) returns (ghost turns: seq<Turn>)
      requires Settled() && forall t :: t in ticks ==> KnownTick(t)
      modifies this, stages, messages
      ensures |turns| <= |ticks| && Went(ticks, turns, old(Now()), generation, messageGeneration)
      ensures |turns| < |ticks| ==> turns != [] && !GoesOn(ticks[|turns| - 1], turns[|turns| - 1].takes)
      ensures frames == old(frames) + FramesIn(AllNoise(ticks, turns), generation, old(stages.generation))
      ensures commands ==
              old(commands) + CommandsIn(AllNoise(ticks, turns), messageGeneration, old(messages.generation))
      ensures stages.generation == FrameGeneration(AllNoise(ticks, turns), old(stages.generation))
      ensures messages.generation == CommandGeneration(AllNoise(ticks, turns), old(messages.generation))
      ensures old(accepted) <= accepted && |accepted| == |old(accepted)| + Batches(ticks, turns)
      ensures stages.generation == generation ==> forall k ::
        && Count(frames, k) == Get(stages.totals, k).count + FramesSent(accepted, k)
        && Time(frames, k) == Get(stages.totals, k).ms + FramesSentTime(accepted, k)
      ensures messages.generation == messageGeneration ==> forall k ::
        && Count(commands, k) == Get(messages.totals, k).count + MessagesSent(accepted, k)
        && Time(commands, k) == Get(messages.totals, k).ms + MessagesSentTime(accepted, k)
      ensures forall k :: FramesSent(accepted, k) <= Count(frames, k)
      ensures forall k :: MessagesSent(accepted, k) <= Count(commands, k)
      ensures ConnectTimes(accepted) <= 1
    {
      turns := RunTurns(ticks);
      LaterAdds(old(Now()), AllNoise(ticks, turns), generation, messageGeneration);
      SettledBalances();
    }

    method RunTurns(ticks: seq<Tick>) returns (ghost turns: seq<Turn>)
      requires Settled() && forall t :: t in ticks ==> KnownTick(t)
      modifies this, stages, messages
      ensures Settled() && |turns| <= |ticks| && Went(ticks, turns, old(Now()), generation, messageGeneration)
      ensures |turns| < |ticks| ==> turns != [] && !GoesOn(ticks[|turns| - 1], turns[|turns| - 1].takes)
      ensures Now() == Later(old(Now()), AllNoise(ticks, turns), generation, messageGeneration)
      ensures old(accepted) <= accepted && |accepted| == |old(accepted)| + Batches(ticks, turns)
    {
      var goOn, i := true, 0;
      turns := [];
      while goOn && i < |ticks|
        invariant Settled() && |turns| == i <= |ticks|
        invariant Went(ticks, turns, old(Now()), generation, messageGeneration)
        invariant !goOn ==> turns != [] && !GoesOn(ticks[|turns| - 1], turns[|turns| - 1].takes)
        invariant Now() == Later(old(Now()), AllNoise(ticks, turns), generation, messageGeneration)
        invariant old(accepted) <= accepted && |accepted| == |old(accepted)| + Batches(ticks, turns)
      {
        assert ticks[i] in ticks;
        ghost var turn;
        goOn, turn := OneTick(ticks[i]);
        LaterConcat(old(Now()), AllNoise(ticks, turns), Happened(ticks[i], turn.takes, turn.empty),
                    generation, messageGeneration);
        assert (turns + [turn])[..i] == turns;
        turns := turns + [turn];
        i := i + 1;
      }
    }

    /** What a settled account says key by key. */
    lemma SettledBalances()
      requires Settled()
      ensures stages.generation == generation ==> forall k ::
        && Count(frames, k) == Get(stages.totals, k).count + FramesSent(accepted, k)
        && Time(frames, k) == Get(stages.totals, k).ms + FramesSentTime(accepted, k)
      ensures messages.generation == messageGeneration ==> forall k ::
        && Count(commands, k) == Get(messages.totals, k).count + MessagesSent(accepted, k)
        && Time(commands, k) == Get(messages.totals, k).ms + MessagesSentTime(accepted, k)
      ensures forall k :: FramesSent(accepted, k) <= Count(frames, k)
      ensures forall k :: MessagesSent(accepted, k) <= Count(commands, k)
    {
      forall k ensures FramesSent(accepted, k) <= Count(frames, k) {
        assert NotTwiceAt(k, frames, map[], FrameCounts(accepted)(k));
      }
      forall k ensures MessagesSent(accepted, k) <= Count(commands, k) {
        assert NotTwiceAt(k, commands, map[], MessageCounts(accepted)(k));
      }
      if stages.generation == generation {
        forall k ensures
            && Count(frames, k) == Get(stages.totals, k).count + FramesSent(accepted, k)
            && Time(frames, k) == Get(stages.totals, k).ms + FramesSentTime(accepted, k) {
          assert BalancedAt(k, frames, stages.totals, map[], FrameMs(accepted)(k), FrameCounts(accepted)(k));
        }
      }
      if messages.generation == messageGeneration {
        forall k ensures
            && Count(commands, k) == Get(messages.totals, k).count + MessagesSent(accepted, k)
            && Time(commands, k) == Get(messages.totals, k).ms + MessagesSentTime(accepted, k) {
          assert BalancedAt(k, commands, messages.totals, map[], MessageMs(accepted)(k), MessageCounts(accepted)(k));
        }
      }
    }
  }
}

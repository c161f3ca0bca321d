/**
 Capture PCM reassembled into the 10 ms blocks the audio device module takes.

 The specification is a stream cut into whole blocks from its start; the class is the buffer that gets there
 push by push.
 */
module PcmBlocks {
  import opened Prelude

  type Sample = x: int | -0x8000 <= x < 0x8000

  datatype Format = Format(rate: nat, channels: nat)

  /** A block as it is handed to the device: samples and the format they are in. */
  datatype Block = Block(samples: seq<Sample>, format: Format)

  predicate SupportedFormat(rate: nat, channels: nat) {
    && (rate == 8_000 || rate == 16_000 || rate == 24_000 || rate == 32_000 || rate == 44_100 || rate == 48_000)
    && (channels == 1 || channels == 2)
  }

  /** A hundredth of a second of every channel: never nothing, and whole frames. */
  function BlockSamples(f: Format): (n: nat)
    requires SupportedFormat(f.rate, f.channels)
    ensures n > 0 && n % f.channels == 0
  {
    if f.channels == 1 then f.rate / 100 else 2 * (f.rate / 100)
  }

  /** A block is 10 ms exactly at every supported rate, with no sample rounded away. */
  lemma BlockIsTenMs(f: Format)
    requires SupportedFormat(f.rate, f.channels)
    ensures 100 * BlockSamples(f) == f.rate * f.channels
  {
    if f.channels == 2 {
      assert f.rate * f.channels == 2 * f.rate;
    }
  }

  // ----- a stream cut into blocks -----

  /** The whole blocks of `n` samples at the start of `s`, in order. */
  function Chunks(s: seq<Sample>, n: nat): seq<seq<Sample>>
    requires n > 0
  {
    if |s| < n then [] else [s[..n]] + Chunks(s[n..], n)
  }

  /** What is left of `s` behind its last whole block. */
  function Tail(s: seq<Sample>, n: nat): seq<Sample>
    requires n > 0
  {
    if |s| < n then s else Tail(s[n..], n)
  }

  function Concat(blocks: seq<seq<Sample>>): seq<Sample> {
    if blocks == [] then [] else blocks[0] + Concat(blocks[1..])
  }

  /** The cut loses nothing, invents nothing and keeps the order; blocks are full, and the tail is not one. */
  lemma {:induction false} CutIsExact(s: seq<Sample>, n: nat)
    requires n > 0
    ensures Concat(Chunks(s, n)) + Tail(s, n) == s
    ensures forall i :: 0 <= i < |Chunks(s, n)| ==> |Chunks(s, n)[i]| == n
    ensures |Tail(s, n)| < n
    decreases |s|
  {
    if |s| >= n {
      var rest := Chunks(s[n..], n);
      CutIsExact(s[n..], n);
      assert Chunks(s, n)[1..] == rest;
      assert s == s[..n] + s[n..];
    }
  }

  /** More samples behind `s` only extend its tail: the blocks already cut stay as they are. */
  lemma {:induction false} CutAppend(s: seq<Sample>, t: seq<Sample>, n: nat)
    requires n > 0
    ensures Chunks(s + t, n) == Chunks(s, n) + Chunks(Tail(s, n) + t, n)
    ensures Tail(s + t, n) == Tail(Tail(s, n) + t, n)
    decreases |s|
  {
    if |s| >= n {
      assert (s + t)[..n] == s[..n] && (s + t)[n..] == s[n..] + t;
      CutAppend(s[n..], t, n);
    }
  }

  // ----- one push -----

  datatype State = State(format: Option<Format>, pending: seq<Sample>)

  const SILENT := State(None, [])

  datatype Input = Input(pcm: seq<Sample>, rate: nat, channels: nat)

  /** A push is taken unless its format is unsupported, a frame of it is incomplete, or it is empty. */
  predicate Accepted(p: Input) {
    SupportedFormat(p.rate, p.channels) && |p.pcm| % p.channels == 0 && p.pcm != []
  }

  /** What is buffered ahead of this push: the tail of the same format, or nothing. */
  function Kept(st: State, f: Format): seq<Sample> {
    if st.format == Some(f) then st.pending else []
  }

  function Pushed(st: State, p: Input): State {
    if !Accepted(p) then st
    else
      var f := Format(p.rate, p.channels);
      State(Some(f), Tail(Kept(st, f) + p.pcm, BlockSamples(f)))
  }

  function InFormat(blocks: seq<seq<Sample>>, f: Format): seq<Block> {
    seq(|blocks|, i requires 0 <= i < |blocks| => Block(blocks[i], f))
  }

  lemma InFormatAppend(a: seq<seq<Sample>>, b: seq<seq<Sample>>, f: Format)
    ensures InFormat(a + b, f) == InFormat(a, f) + InFormat(b, f)
  {
  }

  function Delivered(st: State, p: Input): seq<Block> {
    if !Accepted(p) then []
    else
      var f := Format(p.rate, p.channels);
      InFormat(Chunks(Kept(st, f) + p.pcm, BlockSamples(f)), f)
  }

  /** The tail is less than one block, holds whole frames, and is empty before the first push. */
  predicate Valid(st: State) {
    match st.format
    case None => st.pending == []
    case Some(f) =>
      && SupportedFormat(f.rate, f.channels)
      && |st.pending| < BlockSamples(f) && |st.pending| % f.channels == 0
  }

  class AudioInput {
    var format: Option<Format>
    var pending: seq<Sample>

    function View(): State
      reads this
    {
      State(format, pending)
    }

    constructor ()
      ensures View() == SILENT
    {
      format, pending := None, [];
    }

    /** `push`; the blocks handed to `deliver` come back in the order they were delivered. */
    method Push(pcm: seq<Sample>, rate: nat, channels: nat) returns (delivered: seq<Block>)
      requires Valid(View())
      modifies this
      ensures View() == Pushed(old(View()), Input(pcm, rate, channels))
      ensures delivered == Delivered(old(View()), Input(pcm, rate, channels))
    {
      delivered := [];
      if !SupportedFormat(rate, channels) || |pcm| % channels != 0 { return; }
      if pcm == [] { return; }
      var f := Format(rate, channels);
      if format != Some(f) {
        pending := [];
        format := Some(f);
      }
      ghost var whole, cut := pending + pcm, [];
      var n := BlockSamples(f);
      var rest := pcm;
      if pending != [] {
        var take := if n - |pending| < |rest| then n - |pending| else |rest|;
        pending := pending + rest[..take];
        rest := rest[take..];
        assert pending + rest == whole;
        if |pending| == n {
          assert pending == whole[..n] && rest == whole[n..];
          delivered := [Block(pending, f)];
          cut := [pending];
          pending := [];
        }
      }
      assert pending == [] ==> pending + rest == rest;
      while |rest| >= n
        invariant pending == [] || (rest == [] && |pending| < n)
        invariant Chunks(whole, n) == cut + Chunks(pending + rest, n) && delivered == InFormat(cut, f)
        invariant Tail(whole, n) == Tail(pending + rest, n)
        decreases |rest|
      {
        assert pending + rest == rest && pending + rest[n..] == rest[n..];
        delivered := delivered + [Block(rest[..n], f)];
        cut := cut + [rest[..n]];
        rest := rest[n..];
      }
      pending := pending + rest;
    }
  }

  // ----- whole runs -----

  function After(st: State, inputs: seq<Input>): State {
    if inputs == [] then st else Pushed(After(st, inputs[..|inputs| - 1]), inputs[|inputs| - 1])
  }

  function AllDelivered(st: State, inputs: seq<Input>): seq<Block> {
    if inputs == [] then []
    else
      var init := inputs[..|inputs| - 1];
      AllDelivered(st, init) + Delivered(After(st, init), inputs[|inputs| - 1])
  }

  /** A stretch of accepted pushes in one format, as the one stream they form. */
  datatype Stretch = Stretch(format: Format, samples: seq<Sample>)

  /** The accepted pushes of a run, grouped where the format changes. */
  function Stretches(inputs: seq<Input>): seq<Stretch> {
    if inputs == [] then []
    else
      var before, p := Stretches(inputs[..|inputs| - 1]), inputs[|inputs| - 1];
      if !Accepted(p) then before
      else
        var f := Format(p.rate, p.channels);
        if before != [] && before[|before| - 1].format == f
        then before[..|before| - 1] + [Stretch(f, before[|before| - 1].samples + p.pcm)]
        else before + [Stretch(f, p.pcm)]
  }

  predicate Playable(st: Stretch) {
    SupportedFormat(st.format.rate, st.format.channels) && |st.samples| % st.format.channels == 0
  }

  /** Every stretch cut from its own start: what should be heard, however it was pushed. */
  function Heard(stretches: seq<Stretch>): seq<Block>
    requires forall i :: 0 <= i < |stretches| ==> Playable(stretches[i])
  {
    if stretches == [] then []
    else
      var last := stretches[|stretches| - 1];
      assert Playable(last);
      Heard(stretches[..|stretches| - 1]) + InFormat(Chunks(last.samples, BlockSamples(last.format)), last.format)
  }

  function LeftOver(stretches: seq<Stretch>): State
    requires forall i :: 0 <= i < |stretches| ==> Playable(stretches[i])
  {
    if stretches == [] then SILENT
    else
      var last := stretches[|stretches| - 1];
      assert Playable(last);
      State(Some(last.format), Tail(last.samples, BlockSamples(last.format)))
  }

  lemma {:induction false} StretchesPlayable(inputs: seq<Input>)
    ensures forall i :: 0 <= i < |Stretches(inputs)| ==> Playable(Stretches(inputs)[i])
    decreases |inputs|
  {
    if inputs != [] {
      StretchesPlayable(inputs[..|inputs| - 1]);
    }
  }

  /**
   For every run of pushes, valid or not, in any formats: what was delivered is each stretch cut into blocks from
   its own start, and what is buffered is the tail of the last one. A format change loses only a tail.
   */
  lemma {:induction false} DeliveryIsExact(inputs: seq<Input>)
    ensures forall i :: 0 <= i < |Stretches(inputs)| ==> Playable(Stretches(inputs)[i])
    ensures AllDelivered(SILENT, inputs) == Heard(Stretches(inputs))
    ensures After(SILENT, inputs) == LeftOver(Stretches(inputs))
    decreases |inputs|
  {
    StretchesPlayable(inputs);
    if inputs != [] {
      var init, p := inputs[..|inputs| - 1], inputs[|inputs| - 1];
      DeliveryIsExact(init);
      if Accepted(p) {
        PushExtends(Stretches(init), p);
      }
    }
  }

  lemma PushExtends(before: seq<Stretch>, p: Input)
    requires forall i :: 0 <= i < |before| ==> Playable(before[i])
    requires Accepted(p)
    ensures var f := Format(p.rate, p.channels);
            var joins := before != [] && before[|before| - 1].format == f;
            var after := if joins then before[..|before| - 1] + [Stretch(f, before[|before| - 1].samples + p.pcm)]
                         else before + [Stretch(f, p.pcm)];
            && (forall i :: 0 <= i < |after| ==> Playable(after[i]))
            && Heard(after) == Heard(before) + Delivered(LeftOver(before), p)
            && LeftOver(after) == Pushed(LeftOver(before), p)
  {
    var f := Format(p.rate, p.channels);
    var n := BlockSamples(f);
    if before != [] && before[|before| - 1].format == f {
      var init, last := before[..|before| - 1], before[|before| - 1].samples;
      var after := init + [Stretch(f, last + p.pcm)];
      assert after[..|after| - 1] == init;
      CutAppend(last, p.pcm, n);
      InFormatAppend(Chunks(last, n), Chunks(Tail(last, n) + p.pcm, n), f);
      assert Heard(after) == Heard(init) + InFormat(Chunks(last + p.pcm, n), f);
    } else {
      var after := before + [Stretch(f, p.pcm)];
      assert after[..|after| - 1] == before;
      assert Kept(LeftOver(before), f) + p.pcm == p.pcm;
    }
  }

  // ----- what a listener gets -----

  /** All accepted samples, in order. */
  function Stream(inputs: seq<Input>): seq<Sample> {
    if inputs == [] then []
    else
      var p := inputs[|inputs| - 1];
      Stream(inputs[..|inputs| - 1]) + (if Accepted(p) then p.pcm else [])
  }

  predicate InOneFormat(inputs: seq<Input>, f: Format) {
    forall i :: 0 <= i < |inputs| && Accepted(inputs[i]) ==> Format(inputs[i].rate, inputs[i].channels) == f
  }

  lemma {:induction false} OneStretch(inputs: seq<Input>, f: Format)
    requires InOneFormat(inputs, f)
    ensures Stretches(inputs) == if Stream(inputs) == [] then [] else [Stretch(f, Stream(inputs))]
    decreases |inputs|
  {
    if inputs != [] {
      var init, p := inputs[..|inputs| - 1], inputs[|inputs| - 1];
      OneStretch(init, f);
      assert [] + p.pcm == p.pcm && Stream(init) + [] == Stream(init);
    }
  }

  function Samples(blocks: seq<Block>): seq<Sample> {
    if blocks == [] then [] else blocks[0].samples + Samples(blocks[1..])
  }

  lemma {:induction false} SamplesInFormat(blocks: seq<seq<Sample>>, f: Format)
    ensures Samples(InFormat(blocks, f)) == Concat(blocks)
  {
    if blocks != [] {
      assert InFormat(blocks, f)[1..] == InFormat(blocks[1..], f);
      SamplesInFormat(blocks[1..], f);
    }
  }

  /** Within one format, the delivered samples and then the buffered ones are all the accepted ones. */
  lemma NothingLostInOneFormat(inputs: seq<Input>, f: Format)
    requires InOneFormat(inputs, f)
    ensures Samples(AllDelivered(SILENT, inputs)) + After(SILENT, inputs).pending == Stream(inputs)
  {
    DeliveryIsExact(inputs);
    OneStretch(inputs, f);
    if Stream(inputs) != [] {
      var n := BlockSamples(f);
      var stretches := Stretches(inputs);
      assert stretches[..0] == [];
      assert Playable(stretches[0]);
      CutIsExact(Stream(inputs), n);
      SamplesInFormat(Chunks(Stream(inputs), n), f);
      assert Heard(stretches) == InFormat(Chunks(Stream(inputs), n), f);
    }
  }

  /** So two ways of splitting one stream deliver the same blocks and leave the same buffer. */
  lemma SplitDoesNotMatter(one: seq<Input>, other: seq<Input>, f: Format)
    requires InOneFormat(one, f) && InOneFormat(other, f) && Stream(one) == Stream(other)
    ensures AllDelivered(SILENT, one) == AllDelivered(SILENT, other)
    ensures After(SILENT, one) == After(SILENT, other)
  {
    DeliveryIsExact(one);
    DeliveryIsExact(other);
    OneStretch(one, f);
    OneStretch(other, f);
  }

  predicate TenMs(b: Block) {
    SupportedFormat(b.format.rate, b.format.channels) && |b.samples| == BlockSamples(b.format)
  }

  lemma {:induction false} TailIsAligned(s: seq<Sample>, n: nat, channels: nat)
    requires channels == 1 || channels == 2
    requires n > 0 && n % channels == 0 && |s| % channels == 0
    ensures |Tail(s, n)| < n && |Tail(s, n)| % channels == 0
    decreases |s|
  {
    if |s| >= n {
      assert (|s| - n) % channels == 0;
      TailIsAligned(s[n..], n, channels);
    }
  }

  /** Every block of every run is exactly 10 ms in its own format, and the tail is a whole number of frames. */
  lemma {:induction false} BlocksAreTenMs(inputs: seq<Input>)
    ensures forall i :: 0 <= i < |AllDelivered(SILENT, inputs)| ==> TenMs(AllDelivered(SILENT, inputs)[i])
    ensures Valid(After(SILENT, inputs))
    decreases |inputs|
  {
    if inputs != [] {
      var init, p := inputs[..|inputs| - 1], inputs[|inputs| - 1];
      BlocksAreTenMs(init);
      if Accepted(p) {
        var f := Format(p.rate, p.channels);
        var whole := Kept(After(SILENT, init), f) + p.pcm;
        assert |whole| % f.channels == 0;
        CutIsExact(whole, BlockSamples(f));
        TailIsAligned(whole, BlockSamples(f), f.channels);
      }
    }
  }
}

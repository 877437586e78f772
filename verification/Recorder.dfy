/** The audio side of the recorder (monitor/recorder.c): samples of any count are re-blocked into
    encoder frames through a FIFO, and every frame gets a presentation timestamp. */
module Recorder {
  import opened Blocking
  import opened Sequences

  type Samples = seq<int>

  datatype RecordType = VideoOnly | AudioOnly | VideoAudio

  /** A frame handed to the encoder. */
  datatype Frame = Frame(samples: Samples, pts: int)

  /** The timestamp fields of `RecorderContext`. */
  datatype Clock = Clock(videoPts: nat, audioPts: nat, audioPtsOffset: nat)

  /** Encoder parameters: sample rate and the video time base num / den. */
  datatype Rate = Rate(sampleRate: nat, num: nat, den: nat)

  predicate ValidRate(rate: Rate) { 0 < rate.den }

  /** The position of the video clock in audio samples. */
  function VideoTime(videoPts: nat, rate: Rate): (t: nat)
    requires ValidRate(rate)
  {
    videoPts * rate.sampleRate * rate.num / rate.den
  }

  /** Stamping one frame: the new clock and the timestamp. */
  function Stamp(recordType: RecordType, clock: Clock, rate: Rate, frameSize: nat): (Clock, int)
    requires ValidRate(rate)
  {
    if recordType == AudioOnly then
      (clock.(audioPts := clock.audioPts + frameSize), clock.audioPts)
    else
      var pts := VideoTime(clock.videoPts, rate);
      if pts == clock.audioPts then
        (clock.(audioPtsOffset := clock.audioPtsOffset + 1), pts + clock.audioPtsOffset + 1)
      else
        (clock.(audioPts := pts, audioPtsOffset := 0), pts)
  }

  // ----- stamping a run of frames -----------------------------------------------------------------

  function StampAll(recordType: RecordType, clock: Clock, rate: Rate, blocks: seq<Samples>): (Clock, seq<Frame>)
    requires ValidRate(rate)
    decreases |blocks|
  {
    if blocks == [] then (clock, [])
    else
      var (c, pts) := Stamp(recordType, clock, rate, |blocks[0]|);
      var (c', frames) := StampAll(recordType, c, rate, blocks[1..]);
      (c', [Frame(blocks[0], pts)] + frames)
  }

  lemma {:induction false} StampAllLast(recordType: RecordType, clock: Clock, rate: Rate, blocks: seq<Samples>, b: Samples)
    requires ValidRate(rate)
    ensures var (c, frames) := StampAll(recordType, clock, rate, blocks);
            var (c', pts) := Stamp(recordType, c, rate, |b|);
            StampAll(recordType, clock, rate, blocks + [b]) == (c', frames + [Frame(b, pts)])
    decreases |blocks|
  {
    if blocks != [] {
      var (c, pts) := Stamp(recordType, clock, rate, |blocks[0]|);
      StampAllLast(recordType, c, rate, blocks[1..], b);
      assert (blocks + [b])[1..] == blocks[1..] + [b];
      var (c1, frames1) := StampAll(recordType, c, rate, blocks[1..]);
      Associative([Frame(blocks[0], pts)], frames1, [Frame(b, Stamp(recordType, c1, rate, |b|).1)]);
    } else {
      var pts := Stamp(recordType, clock, rate, |b|).1;
      assert [b][1..] == [] && [] + [b] == [b];
      assert [] + [Frame(b, pts)] == [Frame(b, pts)] + [];
    }
  }

  /** In an audio-only recorder the timestamp of a frame is the number of samples before it. */
  lemma {:induction false} AudioOnlyPtsCountsSamples(clock: Clock, rate: Rate, blocks: seq<Samples>, k: nat)
    requires ValidRate(rate) && k < |blocks|
    ensures var frames := StampAll(AudioOnly, clock, rate, blocks).1;
            |frames| == |blocks| && frames[k].samples == blocks[k]
            && frames[k].pts == clock.audioPts + |Flatten(blocks[..k])|
    decreases k
  {
    var (c, pts) := Stamp(AudioOnly, clock, rate, |blocks[0]|);
    StampAllLength(AudioOnly, c, rate, blocks[1..]);
    if k > 0 {
      AudioOnlyPtsCountsSamples(c, rate, blocks[1..], k - 1);
      assert blocks[1..][..k - 1] == blocks[..k][1..];
    }
  }

  lemma {:induction false} StampAllLength(recordType: RecordType, clock: Clock, rate: Rate, blocks: seq<Samples>)
    requires ValidRate(rate)
    ensures |StampAll(recordType, clock, rate, blocks).1| == |blocks|
    decreases |blocks|
  {
    if blocks == [] {
    } else {
      StampAllLength(recordType, Stamp(recordType, clock, rate, |blocks[0]|).0, rate, blocks[1..]);
    }
  }

  /** A library call of one `recorder_write_audio_frame` that fails: the FIFO write, or the FIFO read, the
      conversion or the encoding of the frame with the given number within the call. */
  datatype Fault = NoFault | WriteFault | ReadFault(at: nat) | ConvertFault(at: nat) | EncodeFault(at: nat)

  /** What a call leaves behind: the blocks it took out of the FIFO, the frames it stamped, and the FIFO. */
  datatype Outcome = Outcome(ok: bool, clock: Clock, fifo: Samples, read: seq<Samples>, frames: seq<Frame>)

  /** How many of `n` frames are read, how many are stamped, and whether the fault stops the call. */
  function Progress(fault: Fault, n: nat): (r: (nat, nat, bool))
    ensures r.1 <= r.0 <= n && (!r.2 ==> r.0 == r.1 == n)
  {
    match fault
    case ReadFault(k) => if k < n then (k, k, true) else (n, n, false)
    case ConvertFault(k) => if k < n then (k + 1, k, true) else (n, n, false)
    case EncodeFault(k) => if k < n then (k + 1, k + 1, true) else (n, n, false)
    case _ => (n, n, false)
  }

  function WriteOutcome(recordType: RecordType, clock: Clock, rate: Rate, fifo: Samples, data: Samples,
                        frameSize: nat, fault: Fault): Outcome
    requires ValidRate(rate) && 0 < frameSize
  {
    if recordType == VideoOnly || fault == WriteFault then Outcome(false, clock, fifo, [], [])
    else
      var blocks := Blocks(fifo + data, frameSize);
      var (read, stamped, stopped) := Progress(fault, |blocks|);
      var (c, frames) := StampAll(recordType, clock, rate, blocks[..stamped]);
      Outcome(!stopped, c, Flatten(blocks[read..]) + Rest(fifo + data, frameSize), blocks[..read], frames)
  }

  /** Conservation whatever fails behind the FIFO write: blocks taken out followed by the FIFO are the old
      FIFO followed by the new samples; a call that succeeds leaves less than a frame. */
  lemma WriteConserves(recordType: RecordType, clock: Clock, rate: Rate, fifo: Samples, data: Samples,
                       frameSize: nat, fault: Fault)
    requires ValidRate(rate) && 0 < frameSize && recordType != VideoOnly && fault != WriteFault
    ensures var out := WriteOutcome(recordType, clock, rate, fifo, data, frameSize, fault);
            && Flatten(out.read) + out.fifo == fifo + data
            && (forall k :: 0 <= k < |out.read| ==> |out.read[k]| == frameSize)
            && (out.ok ==> |out.fifo| < frameSize)
  {
    var all := fifo + data;
    var blocks := Blocks(all, frameSize);
    CutIsCut(all, frameSize);
    var (read, _, stopped) := Progress(fault, |blocks|);
    FlattenAppend(blocks[..read], blocks[read..]);
    assert blocks == blocks[..read] + blocks[read..];
    Associative(Flatten(blocks[..read]), Flatten(blocks[read..]), Rest(all, frameSize));
  }

  /** A call in which every library call succeeds. */
  lemma WriteWithoutFault(recordType: RecordType, clock: Clock, rate: Rate, fifo: Samples, data: Samples, frameSize: nat)
    requires ValidRate(rate) && 0 < frameSize && recordType != VideoOnly
    ensures var out := WriteOutcome(recordType, clock, rate, fifo, data, frameSize, NoFault);
            && (out.clock, out.frames) == StampAll(recordType, clock, rate, Blocks(fifo + data, frameSize))
            && out.ok && out.fifo == Rest(fifo + data, frameSize)
  {
    var blocks := Blocks(fifo + data, frameSize);
    assert blocks[..|blocks|] == blocks && blocks[|blocks|..] == [];
    assert [] + Rest(fifo + data, frameSize) == Rest(fifo + data, frameSize);
  }

  /** How far a call comes: a frame is taken out of the FIFO unless an earlier one failed or it cannot be read itself, and
      handed to the encoder, with the next block of samples, if it could be converted as well. */
  lemma FramesUntilFault(recordType: RecordType, clock: Clock, rate: Rate, fifo: Samples, data: Samples, frameSize: nat,
                         fault: Fault)
    requires ValidRate(rate) && 0 < frameSize && recordType != VideoOnly && fault != WriteFault
    ensures var out, blocks := WriteOutcome(recordType, clock, rate, fifo, data, frameSize, fault),
                               Blocks(fifo + data, frameSize);
            && out.read <= blocks && |out.frames| <= |out.read|
            && (forall k :: 0 <= k < |blocks| ==>
                  && (k < |out.read| <==> forall j :: 0 <= j <= k ==>
                        fault != ReadFault(j) && (j < k ==> fault != ConvertFault(j) && fault != EncodeFault(j)))
                  && (k < |out.frames| <==> k < |out.read| && fault != ConvertFault(k))
                  && (k < |out.frames| ==> out.frames[k].samples == blocks[k]))
            && (out.ok <==> |out.frames| == |blocks| && forall j :: 0 <= j < |blocks| ==> fault != EncodeFault(j))
  {
    var blocks := Blocks(fifo + data, frameSize);
    var (read, stamped, stopped) := Progress(fault, |blocks|);
    StampAllLength(recordType, clock, rate, blocks[..stamped]);
    forall k | 0 <= k < stamped
      ensures StampAll(recordType, clock, rate, blocks[..stamped]).1[k].samples == blocks[k]
    {
      FramesHoldBlocks(recordType, clock, rate, blocks[..stamped], k);
    }
  }

  lemma {:induction false} FramesHoldBlocks(recordType: RecordType, clock: Clock, rate: Rate, blocks: seq<Samples>, k: nat)
    requires ValidRate(rate) && k < |blocks|
    ensures var frames := StampAll(recordType, clock, rate, blocks).1; k < |frames| && frames[k].samples == blocks[k]
    decreases k
  {
    var c := Stamp(recordType, clock, rate, |blocks[0]|).0;
    StampAllLength(recordType, c, rate, blocks[1..]);
    if k > 0 {
      FramesHoldBlocks(recordType, c, rate, blocks[1..], k - 1);
    }
  }

  /** A run of audio-only writes from the fresh recorder. */
  function WriteAll(rate: Rate, writes: seq<Samples>, frameSize: nat): (r: (Clock, Samples, seq<Frame>))
    requires ValidRate(rate) && 0 < frameSize
  {
    if writes == [] then (Clock(0, 0, 0), [], [])
    else
      var before := WriteAll(rate, writes[..|writes| - 1], frameSize);
      var out := WriteOutcome(AudioOnly, before.0, rate, before.1, writes[|writes| - 1], frameSize, NoFault);
      (out.clock, out.fifo, before.2 + out.frames)
  }

  lemma {:induction false} StampAllAppend(recordType: RecordType, clock: Clock, rate: Rate, xs: seq<Samples>, ys: seq<Samples>)
    requires ValidRate(rate)
    ensures var (c, frames) := StampAll(recordType, clock, rate, xs);
            var (c', frames') := StampAll(recordType, c, rate, ys);
            StampAll(recordType, clock, rate, xs + ys) == (c', frames + frames')
    decreases |xs|
  {
    if xs == [] {
      assert xs + ys == ys;
      assert [] + StampAll(recordType, clock, rate, ys).1 == StampAll(recordType, clock, rate, ys).1;
    } else {
      var (c, pts) := Stamp(recordType, clock, rate, |xs[0]|);
      StampAllAppend(recordType, c, rate, xs[1..], ys);
      assert (xs + ys)[1..] == xs[1..] + ys;
      var (c1, frames1) := StampAll(recordType, c, rate, xs[1..]);
      Associative([Frame(xs[0], pts)], frames1, StampAll(recordType, c1, rate, ys).1);
    }
  }

  /** Whatever the writes, the frames are those of all samples cut at once. */
  lemma {:induction false} AudioOnlyFrames(rate: Rate, writes: seq<Samples>, frameSize: nat)
    requires ValidRate(rate) && 0 < frameSize
    ensures var (clock, fifo, frames) := WriteAll(rate, writes, frameSize);
            && (clock, frames) == StampAll(AudioOnly, Clock(0, 0, 0), rate, Blocks(Flatten(writes), frameSize))
            && fifo == Rest(Flatten(writes), frameSize)
  {
    hide Stamp;
    if writes == [] {
    } else {
      var front, last := writes[..|writes| - 1], writes[|writes| - 1];
      assert Flatten([last]) == last;
      hide StampAll, WriteOutcome, Blocks, Rest, Flatten;
      AudioOnlyFrames(rate, front, frameSize);
      var before := WriteAll(rate, front, frameSize);
      WriteWithoutFault(AudioOnly, before.0, rate, before.1, last, frameSize);
      assert writes == front + [last];
      FlattenAppend(front, [last]);
      CutInTwo(Flatten(front), last, frameSize);
      StampAllAppend(AudioOnly, Clock(0, 0, 0), rate, Blocks(Flatten(front), frameSize),
                     Blocks(Rest(Flatten(front), frameSize) + last, frameSize));
    }
  }

  /** Over any sequence of audio-only writes, whatever their sizes: the frames are the blocks of everything
      written, in order, each stamped with the number of samples before it, and the FIFO holds the rest. */
  lemma {:induction false} AudioOnlyRun(rate: Rate, writes: seq<Samples>, frameSize: nat)
    requires ValidRate(rate) && 0 < frameSize
    ensures var (clock, fifo, frames) := WriteAll(rate, writes, frameSize);
            var all := Flatten(writes);
            && (clock, frames) == StampAll(AudioOnly, Clock(0, 0, 0), rate, Blocks(all, frameSize))
            && fifo == Rest(all, frameSize) && |fifo| < frameSize
            && |frames| == |Blocks(all, frameSize)|
            && Flatten(Blocks(all, frameSize)) + fifo == all
            && (forall k :: 0 <= k < |frames| ==>
                  frames[k].samples == Blocks(all, frameSize)[k]
                  && frames[k].pts == |Flatten(Blocks(all, frameSize)[..k])|)
  {
    hide Stamp;
    var blocks := Blocks(Flatten(writes), frameSize);
    AudioOnlyFrames(rate, writes, frameSize);
    CutIsCut(Flatten(writes), frameSize);
    StampAllLength(AudioOnly, Clock(0, 0, 0), rate, blocks);
    forall k | 0 <= k < |blocks|
      ensures var frames := StampAll(AudioOnly, Clock(0, 0, 0), rate, blocks).1;
              frames[k].samples == blocks[k] && frames[k].pts == |Flatten(blocks[..k])|
    {
      AudioOnlyPtsCountsSamples(Clock(0, 0, 0), rate, blocks, k);
    }
  }

  // ----- monotone timestamps of a video-and-audio recorder -------------------------------------------

  /** One encoded video frame, or one encoded audio frame. */
  datatype Step = Video | Audio

  function RunSteps(clock: Clock, rate: Rate, steps: seq<Step>): (r: (Clock, seq<int>))
    requires ValidRate(rate)
  {
    if steps == [] then (clock, [])
    else
      var (c, stamps) := RunSteps(clock, rate, steps[..|steps| - 1]);
      if steps[|steps| - 1] == Video then (c.(videoPts := c.videoPts + 1), stamps)
      else var (c', pts) := Stamp(VideoAudio, c, rate, 0); (c', stamps + [pts])
  }

  function PtsOf(frames: seq<Frame>): seq<int>
  {
    seq(|frames|, k requires 0 <= k < |frames| => frames[k].pts)
  }

  /** One more frame is one more audio step; its timestamp does not depend on the number of samples in it. */
  lemma OneAudioStep(clock: Clock, rate: Rate, before: seq<Step>, c: Clock, stamps: seq<int>, frames: seq<Frame>,
                     block: Samples)
    requires ValidRate(rate) && RunSteps(clock, rate, before) == (c, stamps + PtsOf(frames))
    ensures var (c', pts) := Stamp(VideoAudio, c, rate, |block|);
            RunSteps(clock, rate, before + [Audio]) == (c', stamps + PtsOf(frames + [Frame(block, pts)]))
  {
    RunStepsLast(clock, rate, before, Audio);
    var pts := Stamp(VideoAudio, c, rate, |block|).1;
    assert PtsOf(frames + [Frame(block, pts)]) == PtsOf(frames) + [pts];
    Associative(stamps, PtsOf(frames), [pts]);
  }

  /** The frames one `recorder_write_audio_frame` stamps are that many audio steps of the run. */
  lemma {:induction false} StampAllIsAudioSteps(clock: Clock, rate: Rate, steps: seq<Step>, blocks: seq<Samples>)
    requires ValidRate(rate)
    ensures var (c, stamps) := RunSteps(clock, rate, steps);
            var (c', frames) := StampAll(VideoAudio, c, rate, blocks);
            RunSteps(clock, rate, steps + seq(|blocks|, _ => Audio)) == (c', stamps + PtsOf(frames))
    decreases |blocks|
  {
    var (c, stamps) := RunSteps(clock, rate, steps);
    if blocks == [] {
      assert steps + seq(|blocks|, _ => Audio) == steps;
      assert stamps + PtsOf([]) == stamps;
    } else {
      var front, last := blocks[..|blocks| - 1], blocks[|blocks| - 1];
      var before := steps + seq(|front|, _ => Audio);
      assert blocks == front + [last] && steps + seq(|blocks|, _ => Audio) == before + [Audio];
      StampAllIsAudioSteps(clock, rate, steps, front);
      var (c1, frames) := StampAll(VideoAudio, c, rate, front);
      StampAllLast(VideoAudio, c, rate, front, last);
      OneAudioStep(clock, rate, before, c1, stamps, frames, last);
    }
  }

  /** The samples a video frame is sure to span. */
  function FrameSpan(rate: Rate): nat
    requires ValidRate(rate)
  {
    rate.sampleRate * rate.num / rate.den
  }

  /** The state in which the next audio frame finds room: the video clock stands still, or its last move
      passed the offsets handed out since. */
  predicate HasRoom(clock: Clock, rate: Rate)
    requires ValidRate(rate)
  {
    var pts := VideoTime(clock.videoPts, rate);
    pts == clock.audioPts || clock.audioPts + clock.audioPtsOffset < pts
  }

  /** Before every audio frame of the run the state satisfies `p`. */
  ghost predicate Throughout(clock: Clock, rate: Rate, steps: seq<Step>, p: Clock -> bool)
    requires ValidRate(rate)
  {
    forall k :: 0 <= k < |steps| && steps[k] == Audio ==> p(RunSteps(clock, rate, steps[..k]).0)
  }

  ghost predicate Increasing(stamps: seq<int>)
  {
    forall j, k :: 0 <= j < k < |stamps| ==> stamps[j] < stamps[k]
  }

  lemma DivSuperadditive(a: nat, b: nat, den: nat)
    requires 0 < den
    ensures a / den + b / den <= (a + b) / den
  {
    DivUpper(a, den);
    DivUpper(b, den);
    Distributes(den, a / den, b / den);
    DivLower(a + b, a / den + b / den, den);
  }

  lemma DivUpper(x: nat, den: nat)
    requires 0 < den
    ensures den * (x / den) <= x
  {
    assert x == den * (x / den) + x % den;
  }

  lemma Distributes(den: nat, p: nat, q: nat)
    ensures den * (p + q) == den * p + den * q
  {
  }

  lemma DivLower(x: nat, q: nat, den: nat)
    requires 0 < den && den * q <= x
    ensures q <= x / den
  {
    if x / den < q {
      var p := x / den;
      assert x == den * p + x % den;
      assert den * (p + 1) <= den * q by { assert p + 1 <= q; MulMonotone(den, p + 1, q); }
    }
  }

  lemma MulMonotone(den: nat, p: nat, q: nat)
    requires p <= q
    ensures den * p <= den * q
  {
  }

  /** Each video frame moves the video clock by at least `FrameSpan`. */
  lemma VideoTimeAdvances(v: nat, rate: Rate)
    requires ValidRate(rate)
    ensures VideoTime(v, rate) + FrameSpan(rate) <= VideoTime(v + 1, rate)
  {
    var unit := rate.sampleRate * rate.num;
    assert v * rate.sampleRate * rate.num == v * unit;
    assert (v + 1) * rate.sampleRate * rate.num == v * unit + unit;
    DivSuperadditive(v * unit, unit, rate.den);
  }

  /** Where the video clock is: at the last whole sample before the moment `v` frames take. */
  lemma VideoTimeIsFloor(v: nat, rate: Rate)
    requires ValidRate(rate)
    ensures VideoTime(v, rate) * rate.den <= v * rate.sampleRate * rate.num < (VideoTime(v, rate) + 1) * rate.den
  {
    var x := v * rate.sampleRate * rate.num;
    assert x == rate.den * (x / rate.den) + x % rate.den;
  }

  lemma {:induction false} VideoTimeMonotone(v: nat, w: nat, rate: Rate)
    requires ValidRate(rate) && v <= w
    ensures VideoTime(v, rate) <= VideoTime(w, rate)
    decreases w - v
  {
    if v < w {
      VideoTimeAdvances(w - 1, rate);
      VideoTimeMonotone(v, w - 1, rate);
    }
  }

  /** How many of the steps are of the kind. */
  function Steps(steps: seq<Step>, kind: Step): nat
  {
    if steps == [] then 0
    else Steps(steps[..|steps| - 1], kind) + if steps[|steps| - 1] == kind then 1 else 0
  }

  lemma {:induction false} RunCounts(rate: Rate, steps: seq<Step>)
    requires ValidRate(rate)
    ensures var (c, stamps) := RunSteps(Clock(0, 0, 0), rate, steps);
            c.videoPts == Steps(steps, Video) && |stamps| == Steps(steps, Audio)
  {
    if steps == [] {
    } else {
      RunCounts(rate, steps[..|steps| - 1]);
    }
  }

  /** The stamps of the first steps are the first stamps. */
  lemma {:induction false} StampsStay(rate: Rate, steps: seq<Step>, k: nat)
    requires ValidRate(rate) && k <= |steps|
    ensures RunSteps(Clock(0, 0, 0), rate, steps[..k]).1 <= RunSteps(Clock(0, 0, 0), rate, steps).1
    decreases |steps|
  {
    if k == |steps| {
      assert steps[..k] == steps;
    } else {
      StampsStay(rate, steps[..|steps| - 1], k);
      assert steps[..|steps| - 1][..k] == steps[..k];
    }
  }

  /** Audio keeps to the video clock, over any interleaving: the stamp of an audio frame, without the offset it was
      given, lies less than one sample before the moment the video frames so far take. */
  lemma StampsKeepToVideo(rate: Rate, steps: seq<Step>, k: nat)
    requires ValidRate(rate) && k < |steps| && steps[k] == Audio
    ensures var stamps, at := RunSteps(Clock(0, 0, 0), rate, steps).1, Steps(steps[..k], Audio);
            var offset, v := RunSteps(Clock(0, 0, 0), rate, steps[..k + 1]).0.audioPtsOffset, Steps(steps[..k], Video);
            && at < |stamps|
            && (stamps[at] - offset) * rate.den <= v * rate.sampleRate * rate.num < (stamps[at] - offset + 1) * rate.den
  {
    var start := Clock(0, 0, 0);
    RunCounts(rate, steps[..k]);
    assert steps[..k + 1] == steps[..k] + [Audio];
    RunStepsLast(start, rate, steps[..k], Audio);
    StampsStay(rate, steps, k + 1);
    VideoTimeIsFloor(Steps(steps[..k], Video), rate);
  }

  /** The audio frames since the last video frame. */
  function Trailing(steps: seq<Step>): nat
  {
    if steps == [] || steps[|steps| - 1] == Video then 0 else 1 + Trailing(steps[..|steps| - 1])
  }

  /** The clock behind a run, when a video frame spans at least a sample. */
  ghost predicate ClockSpelled(clock: Clock, rate: Rate, steps: seq<Step>)
    requires ValidRate(rate)
  {
    var v, n := Steps(steps, Video), Trailing(steps);
    && clock.videoPts == v
    && (v == n == 0 ==> clock.audioPts == 0 && clock.audioPtsOffset == 0)
    && (0 < v && n == 0 ==> clock.audioPts <= VideoTime(v - 1, rate))
    && (0 < n ==> clock.audioPts == VideoTime(v, rate) && clock.audioPtsOffset == if v == 0 then n else n - 1)
  }

  lemma {:induction false} RunClockSpelled(rate: Rate, steps: seq<Step>)
    requires ValidRate(rate) && 0 < FrameSpan(rate)
    ensures ClockSpelled(RunSteps(Clock(0, 0, 0), rate, steps).0, rate, steps)
  {
    if steps == [] {
    } else {
      var front := steps[..|steps| - 1];
      RunClockSpelled(rate, front);
      var v := Steps(front, Video);
      assert VideoTime(0, rate) == 0;
      if 0 < v {
        VideoTimeAdvances(v - 1, rate);
      }
    }
  }

  /** So every audio timestamp of any interleaving is known: the position of the video clock, and the number of audio
      frames before it since the last video frame; before the first video frame they count from one. */
  lemma StampSpelled(rate: Rate, steps: seq<Step>)
    requires ValidRate(rate) && 0 < FrameSpan(rate)
    ensures var stamps, v := RunSteps(Clock(0, 0, 0), rate, steps + [Audio]).1, Steps(steps, Video);
            stamps != [] && stamps[|stamps| - 1] == VideoTime(v, rate) + Trailing(steps) + if v == 0 then 1 else 0
  {
    RunClockSpelled(rate, steps);
    RunStepsLast(Clock(0, 0, 0), rate, steps, Audio);
    var v := Steps(steps, Video);
    assert VideoTime(0, rate) == 0;
    if 0 < v {
      VideoTimeAdvances(v - 1, rate);
    }
  }

  /** What holds between the clock and the stamps of a run from the fresh recorder. */
  ghost predicate Synchronised(clock: Clock, rate: Rate, stamps: seq<int>)
    requires ValidRate(rate)
  {
    && (stamps == [] ==> clock.audioPts == 0 && clock.audioPtsOffset == 0)
    && (stamps != [] ==> stamps[|stamps| - 1] == clock.audioPts + clock.audioPtsOffset)
    && (exists v: nat :: v <= clock.videoPts && VideoTime(v, rate) == clock.audioPts)
  }

  lemma {:induction false} RunSynchronised(rate: Rate, steps: seq<Step>)
    requires ValidRate(rate)
    ensures var (clock, stamps) := RunSteps(Clock(0, 0, 0), rate, steps);
            Synchronised(clock, rate, stamps)
  {
    if steps == [] {
      assert VideoTime(0, rate) == 0;
    } else {
      RunSynchronised(rate, steps[..|steps| - 1]);
      var (c, _) := RunSteps(Clock(0, 0, 0), rate, steps[..|steps| - 1]);
      assert VideoTime(c.videoPts, rate) == VideoTime(c.videoPts, rate);
    }
  }

  /** The exact condition: over any interleaving of video and audio frames the emitted timestamps strictly
      increase iff, before every audio frame but the first, the clock has room for it. */
  lemma {:induction false} IncreasingIffRoom(rate: Rate, steps: seq<Step>)
    requires ValidRate(rate)
    ensures Increasing(RunSteps(Clock(0, 0, 0), rate, steps).1)
            <==> Throughout(Clock(0, 0, 0), rate, steps, (c: Clock) => HasRoom(c, rate))
  {
    var start := Clock(0, 0, 0);
    if steps == [] {
    } else {
      var front := steps[..|steps| - 1];
      IncreasingIffRoom(rate, front);
      RunSynchronised(rate, front);
      var (c, stamps) := RunSteps(start, rate, front);
      assert forall k :: 0 <= k < |front| ==> front[..k] == steps[..k];
      if steps[|steps| - 1] == Audio {
        var (c', pts) := Stamp(VideoAudio, c, rate, 0);
        var all := RunSteps(start, rate, steps).1;
        assert all == stamps + [pts];
        if HasRoom(c, rate) && Increasing(stamps) {
          assert stamps != [] ==> stamps[|stamps| - 1] < pts;
        }
        if Increasing(all) {
          assert forall j, k :: 0 <= j < k < |stamps| ==> all[j] == stamps[j] && all[k] == stamps[k];
          var v: nat :| v <= c.videoPts && VideoTime(v, rate) == c.audioPts;
          VideoTimeMonotone(v, c.videoPts, rate);
          assert stamps != [] ==> all[|stamps| - 1] < all[|stamps|];
          assert HasRoom(c, rate);
        }
      }
    }
  }

  /** What a caller can count: while fewer than `FrameSpan` offsets are handed out between two video frames,
      there is always room, so the timestamps strictly increase. */
  lemma {:induction false} IncreasingUnderBound(rate: Rate, steps: seq<Step>)
    requires ValidRate(rate)
    requires Throughout(Clock(0, 0, 0), rate, steps, (c: Clock) => c.audioPtsOffset < FrameSpan(rate))
    ensures Increasing(RunSteps(Clock(0, 0, 0), rate, steps).1)
  {
    var start := Clock(0, 0, 0);
    forall k | 0 <= k < |steps| && steps[k] == Audio
      ensures HasRoom(RunSteps(start, rate, steps[..k]).0, rate)
    {
      RunSynchronised(rate, steps[..k]);
      var (c, stamps) := RunSteps(start, rate, steps[..k]);
      assert c.audioPtsOffset < FrameSpan(rate);
      var v: nat :| v <= c.videoPts && VideoTime(v, rate) == c.audioPts;
      if v < c.videoPts {
        VideoTimeAdvances(v, rate);
        VideoTimeMonotone(v + 1, c.videoPts, rate);
      }
    }
    IncreasingIffRoom(rate, steps);
  }

  /** Audio frames before the first video frame count up from one. */
  lemma {:induction false} OffsetsCountUp(rate: Rate, n: nat)
    requires ValidRate(rate)
    ensures var (c, stamps) := RunSteps(Clock(0, 0, 0), rate, seq(n, _ => Audio));
            c == Clock(0, 0, n) && |stamps| == n && (0 < n ==> stamps[n - 1] == n)
  {
    if n == 0 {
    } else {
      OffsetsCountUp(rate, n - 1);
      assert seq(n, _ => Audio) == seq(n - 1, _ => Audio) + [Audio];
      RunStepsLast(Clock(0, 0, 0), rate, seq(n - 1, _ => Audio), Audio);
      assert VideoTime(0, rate) == 0;
    }
  }

  /** As many audio frames as a video frame spans samples, a video frame, and an audio frame. */
  function StallingSteps(rate: Rate): seq<Step>
    requires ValidRate(rate)
  {
    seq(FrameSpan(rate), _ => Audio) + [Video] + [Audio]
  }

  /** The bound cannot be raised by one: at every rate, once `FrameSpan` offsets are handed out the next timestamp
      is the last one again. */
  lemma StampsCanStall(rate: Rate)
    requires ValidRate(rate) && 0 < FrameSpan(rate)
    ensures !Increasing(RunSteps(Clock(0, 0, 0), rate, StallingSteps(rate)).1)
  {
    var start, n := Clock(0, 0, 0), FrameSpan(rate);
    var first := seq(n, _ => Audio);
    OffsetsCountUp(rate, n);
    RunStepsLast(start, rate, first, Video);
    RunStepsLast(start, rate, first + [Video], Audio);
    assert VideoTime(1, rate) == n;
    var stamps := RunSteps(start, rate, StallingSteps(rate)).1;
    assert stamps[n - 1] == stamps[n] == n;
  }

  /** At the rate the recorder is opened with, 48000 samples per second and frames of 1001 / 30000 seconds, that
      takes 1601 audio frames without a video frame. */
  lemma StallAtRecordingRate()
    ensures FrameSpan(Rate(48000, 1001, 30000)) == 1601
            && !Increasing(RunSteps(Clock(0, 0, 0), Rate(48000, 1001, 30000), StallingSteps(Rate(48000, 1001, 30000))).1)
  {
    StampsCanStall(Rate(48000, 1001, 30000));
  }

  lemma RunStepsLast(clock: Clock, rate: Rate, steps: seq<Step>, step: Step)
    requires ValidRate(rate)
    ensures var (c, stamps) := RunSteps(clock, rate, steps);
            RunSteps(clock, rate, steps + [step]) ==
            if step == Video then (c.(videoPts := c.videoPts + 1), stamps)
            else (Stamp(VideoAudio, c, rate, 0).0, stamps + [Stamp(VideoAudio, c, rate, 0).1])
  {
    assert (steps + [step])[..|steps|] == steps;
  }

  // ----- the context as an object ----------------------------------------------------------------

  /** `RecorderContext`: the timestamp fields and the FIFO, with the frames handed to the encoder and the
      blocks taken out of the FIFO as ghost histories. */
  class RecorderContext {
    const recordType: RecordType
    const rate: Rate
    const frameSize: nat
    var videoPts: nat
    var audioPts: nat
    var audioPtsOffset: nat
    var fifo: Samples
    ghost var drained: seq<Samples>
    ghost var frames: seq<Frame>

    ghost predicate Valid()
    {
      ValidRate(rate) && 0 < frameSize
    }

    ghost function TheClock(): Clock
      reads this
    {
      Clock(videoPts, audioPts, audioPtsOffset)
    }

    constructor (recordType: RecordType, rate: Rate, frameSize: nat)
      requires ValidRate(rate) && 0 < frameSize
      ensures Valid() && this.recordType == recordType && this.rate == rate && this.frameSize == frameSize
      ensures TheClock() == Clock(0, 0, 0) && fifo == [] && drained == [] && frames == []
    {
      this.recordType, this.rate, this.frameSize := recordType, rate, frameSize;
      videoPts, audioPts, audioPtsOffset := 0, 0, 0;
      fifo, drained, frames := [], [], [];
    }

    /** `recorder_write_video_frame`: the picture is scaled, then the video clock moves. */
    method WriteVideoFrame(scaled: bool) returns (ok: bool)
      modifies this`videoPts
      ensures ok == (recordType != AudioOnly && scaled)
      ensures TheClock() == if ok then old(TheClock()).(videoPts := old(videoPts) + 1) else old(TheClock())
    {
      if recordType == AudioOnly || !scaled {
        return false;
      }
      videoPts := videoPts + 1;
      return true;
    }

    /** The timestamp of one converted frame. */
    method StampFrame() returns (pts: int)
      requires Valid()
      modifies this`audioPts, this`audioPtsOffset
      ensures (TheClock(), pts) == Stamp(recordType, old(TheClock()), rate, frameSize)
    {
      if recordType == AudioOnly {
        pts := audioPts;
        audioPts := audioPts + frameSize;
      } else {
        pts := videoPts * rate.sampleRate * rate.num / rate.den;
        if pts == audioPts {
          audioPtsOffset := audioPtsOffset + 1;
          pts := pts + audioPtsOffset;
        } else {
          audioPts := pts;
          audioPtsOffset := 0;
        }
      }
    }

    /** What has been done when the first `read` blocks are out of the FIFO and `stamped` of them stamped. */
    ghost predicate Done(clock: Clock, oldDrained: seq<Samples>, oldFrames: seq<Frame>,
                         blocks: seq<Samples>, rest: Samples, read: nat, stamped: nat)
      reads this
      requires Valid() && stamped <= read <= |blocks|
    {
      var (c, fs) := StampAll(recordType, clock, rate, blocks[..stamped]);
      && TheClock() == c
      && frames == oldFrames + fs
      && drained == oldDrained + blocks[..read]
      && fifo == Flatten(blocks[read..]) + rest
    }

    /** One turn of the encoding loop, for frame number `k` of the call. */
    method EncodeBlock(fault: Fault, k: nat, ghost clock: Clock, ghost oldDrained: seq<Samples>,
                       ghost oldFrames: seq<Frame>, ghost blocks: seq<Samples>, ghost rest: Samples)
      returns (ok: bool)
      requires Valid() && frameSize <= |fifo| && k <= |blocks|
      requires Done(clock, oldDrained, oldFrames, blocks, rest, k, k) && Blocks(fifo, frameSize) == blocks[k..]
      requires !Progress(fault, k).2
      modifies this
      ensures k < |blocks|
      ensures var (read, stamped, stopped) := Progress(fault, k + 1);
              ok == !stopped && Done(clock, oldDrained, oldFrames, blocks, rest, read, stamped)
      ensures ok ==> Blocks(fifo, frameSize) == blocks[k + 1..]
    {
      TakeBlock(fifo, rest, blocks, k, frameSize);
      if fault == ReadFault(k) {
        return false;
      }
      var block := fifo[..frameSize];
      fifo := fifo[frameSize..];
      drained := drained + [block];
      if fault == ConvertFault(k) {
        return false;
      }
      StampAllLast(recordType, clock, rate, blocks[..k], blocks[k]);
      var pts := StampFrame();
      frames := frames + [Frame(block, pts)];
      return fault != EncodeFault(k);
    }

    /** `recorder_write_audio_frame`. */
    method WriteAudioFrame(data: Samples, fault: Fault) returns (ok: bool)
      requires Valid()
      modifies this
      ensures var out := WriteOutcome(recordType, old(TheClock()), rate, old(fifo), data, frameSize, fault);
              && ok == out.ok && TheClock() == out.clock && fifo == out.fifo
              && drained == old(drained) + out.read
              && frames == old(frames) + out.frames
    {
      if recordType == VideoOnly || fault == WriteFault {
        assert drained == old(drained) + [] && frames == old(frames) + [];
        return false;
      }
      fifo := fifo + data;
      ok := EncodeBlocks(fault);
    }

    /** The encoding loop. */
    method EncodeBlocks(fault: Fault) returns (ok: bool)
      requires Valid()
      modifies this
      ensures var blocks, rest := Blocks(old(fifo), frameSize), Rest(old(fifo), frameSize);
              var (read, stamped, stopped) := Progress(fault, |blocks|);
              ok == !stopped
              && Done(old(TheClock()), old(drained), old(frames), blocks, rest, read, stamped)
    {
      ghost var clock, oldDrained, oldFrames := TheClock(), drained, frames;
      ghost var blocks, rest := Blocks(fifo, frameSize), Rest(fifo, frameSize);
      CutIsCut(fifo, frameSize);
      assert blocks[0..] == blocks && blocks[..0] == [];
      var k := 0;
      while frameSize <= |fifo|
        invariant k <= |blocks| && Done(clock, oldDrained, oldFrames, blocks, rest, k, k)
        invariant Blocks(fifo, frameSize) == blocks[k..]
        invariant !Progress(fault, k).2
        decreases |blocks| - k
      {
        ok := EncodeBlock(fault, k, clock, oldDrained, oldFrames, blocks, rest);
        if !ok {
          return;
        }
        k := k + 1;
      }
      assert blocks[k..] == [];
      return true;
    }
  }

  /** The next block of a FIFO that holds the blocks from `k` on. */
  lemma TakeBlock(fifo: Samples, rest: Samples, blocks: seq<Samples>, k: nat, frameSize: nat)
    requires 0 < frameSize <= |fifo| && k <= |blocks| && fifo == Flatten(blocks[k..]) + rest
    requires Blocks(fifo, frameSize) == blocks[k..]
    ensures k < |blocks| && fifo[..frameSize] == blocks[k] && |blocks[k]| == frameSize
    ensures Blocks(fifo[frameSize..], frameSize) == blocks[k + 1..]
    ensures fifo[frameSize..] == Flatten(blocks[k + 1..]) + rest
    ensures blocks[..k + 1] == blocks[..k] + [blocks[k]]
  {
    assert blocks[k..][0] == blocks[k] && blocks[k..][1..] == blocks[k + 1..];
    Associative(blocks[k], Flatten(blocks[k + 1..]), rest);
  }
}

/** The modulation engine of the chorus/flanger: the host parameters, the
    LFO phase accumulator, the mapping from LFO output to a delay time, the
    dry/wet mix, and one sample of the whole engine as a function of its
    state (`Step`), folded over a block of samples (`Run`). */
module Modulation {
  import opened DelayLine

  /** `MAX_DELAY_TIME`: the ring holds two seconds of audio. */
  const MaxDelayTime: real := 2.0

  /** Delay-time ranges, in seconds, of the two effect types. */
  const ChorusMin: real := 0.005
  const ChorusMax: real := 0.03
  const FlangerMin: real := 0.001
  const FlangerMax: real := 0.005

  /** The smallest sample rate at which the ring has a slot at all; below it
      the block processor would write outside an empty ring. */
  const MinSampleRate: real := 0.5

  /** The six host parameters, read once per call. */
  datatype Params = Params(
    dryWet: real,       // "drywet": 0 = fully dry, 1 = fully wet
    depth: real,        // "depth": LFO amplitude
    rate: real,         // "rate": LFO frequency in Hz
    phaseOffset: real,  // "phaseoffset": right-channel LFO offset in cycles
    feedback: real,     // "feedback": gain on the delayed sample fed back
    effectType: int     // "type": 0 = chorus, anything else = flanger
  )

  /** The ranges the parameters are declared with. */
  predicate ParamsInRange(p: Params)
  {
    && 0.0 <= p.dryWet <= 1.0
    && 0.0 <= p.depth <= 1.0
    && 0.1 <= p.rate <= 20.0
    && 0.0 <= p.phaseOffset <= 1.1
    && 0.0 <= p.feedback <= 0.98
    && 0 <= p.effectType <= 1
  }

  /** The default values the parameters are declared with. */
  function DefaultParams(): (p: Params)
    ensures ParamsInRange(p)
    ensures p.effectType == 1
  {
    Params(0.5, 0.5, 10.0, 0.5, 0.5, 1)
  }

  /** The waveform `sin(2 pi phase)` is passed in as a function of the
      phase; all the engine relies on is that it stays within `[-1, 1]`. */
  ghost predicate LfoBounded(lfo: real -> real)
  {
    forall phase :: -1.0 <= lfo(phase) <= 1.0
  }

  /** JUCE's `jmap`: maps `v` linearly from `[srcMin, srcMax]` onto
      `[tgtMin, tgtMax]`. */
  function Jmap(v: real, srcMin: real, srcMax: real, tgtMin: real, tgtMax: real): (r: real)
    requires srcMin != srcMax
    ensures v == srcMin ==> r == tgtMin
    ensures v == srcMax ==> r == tgtMax
    ensures srcMin < srcMax && tgtMin <= tgtMax && srcMin <= v <= srcMax ==> tgtMin <= r <= tgtMax
  {
    JmapBetween(v, srcMin, srcMax, tgtMin, tgtMax);
    tgtMin + ((tgtMax - tgtMin) * (v - srcMin)) / (srcMax - srcMin)
  }

  lemma JmapBetween(v: real, srcMin: real, srcMax: real, tgtMin: real, tgtMax: real)
    requires srcMin != srcMax
    ensures srcMin < srcMax && tgtMin <= tgtMax && srcMin <= v <= srcMax ==>
      tgtMin <= tgtMin + ((tgtMax - tgtMin) * (v - srcMin)) / (srcMax - srcMin) <= tgtMax
  {
    if srcMin < srcMax && tgtMin <= tgtMax && srcMin <= v <= srcMax {
      var w := srcMax - srcMin;
      var k := (v - srcMin) / w;
      assert 0.0 <= k <= 1.0;
      assert ((tgtMax - tgtMin) * (v - srcMin)) / w == (tgtMax - tgtMin) * k;
      MulNonNegative(tgtMax - tgtMin, k);
      MulNonNegative(tgtMax - tgtMin, 1.0 - k);
    }
  }

  /** Mapping back from the target range to the source range undoes the
      mapping. */
  lemma JmapRoundTrip(v: real, srcMin: real, srcMax: real, tgtMin: real, tgtMax: real)
    requires srcMin != srcMax && tgtMin != tgtMax
    ensures Jmap(Jmap(v, srcMin, srcMax, tgtMin, tgtMax), tgtMin, tgtMax, srcMin, srcMax) == v
  {
    var w, h := srcMax - srcMin, tgtMax - tgtMin;
    var t := (v - srcMin) / w;
    var r := Jmap(v, srcMin, srcMax, tgtMin, tgtMax);
    assert (h * (v - srcMin)) / w == h * t;
    assert r - tgtMin == h * t;
    assert (w * (r - tgtMin)) / h == w * t by {
      assert w * (r - tgtMin) == (w * t) * h;
    }
    assert w * t == v - srcMin;
  }

  /** The delay time in seconds for a depth-scaled LFO value: chorus maps
      `[-1, 1]` onto `[ChorusMin, ChorusMax]`, flanger onto
      `[FlangerMin, FlangerMax]`. */
  function DelayTime(effectType: int, v: real): (t: real)
    ensures -1.0 <= v <= 1.0 && effectType == 0 ==> ChorusMin <= t <= ChorusMax
    ensures -1.0 <= v <= 1.0 && effectType != 0 ==> FlangerMin <= t <= FlangerMax
    ensures v == 0.0 ==> t == if effectType == 0 then (ChorusMin + ChorusMax) / 2.0 else (FlangerMin + FlangerMax) / 2.0
  {
    if effectType == 0 then Jmap(v, -1.0, 1.0, ChorusMin, ChorusMax)
    else Jmap(v, -1.0, 1.0, FlangerMin, FlangerMax)
  }

  /** The single wrap applied to LFO phases: subtract one cycle when the
      phase exceeds 1. */
  function WrapPhase(phase: real): (r: real)
    ensures r == phase || r == phase - 1.0
    ensures 0.0 <= phase <= 2.0 ==> 0.0 <= r <= 1.0
    ensures 1.0 < phase ==> r < phase
  {
    if phase > 1.0 then phase - 1.0 else phase
  }

  /** The LFO phase one sample later: advanced by `rate / sampleRate`,
      wrapped once. */
  function AdvancePhase(phase: real, rate: real, sampleRate: real): (r: real)
    requires 0.0 < sampleRate
    ensures 0.0 <= phase <= 1.0 && 0.0 <= rate <= sampleRate ==> 0.0 <= r <= 1.0
    ensures phase + rate / sampleRate == 1.0 ==> r == 1.0
  {
    RatioInUnit(rate, sampleRate);
    WrapPhase(phase + rate / sampleRate)
  }

  lemma RatioInUnit(x: real, y: real)
    requires 0.0 < y
    ensures 0.0 <= x <= y ==> 0.0 <= x / y <= 1.0
  {
    if 0.0 <= x <= y {
      assert x / y * y == x;
    }
  }

  /** The sample fed back into the ring on the next sample: the delayed
      sample scaled by the feedback gain. With a gain below 1 it is
      strictly smaller in magnitude than the delayed sample, unless both
      are zero. */
  function Feedback(delayed: real, gain: real): (r: real)
    ensures gain == 0.0 ==> r == 0.0
    ensures 0.0 <= gain < 1.0 ==> Abs(r) <= Abs(delayed) && (delayed != 0.0 ==> Abs(r) < Abs(delayed))
  {
    FeedbackShrinks(delayed, gain);
    delayed * gain
  }

  function Abs(x: real): real { if x < 0.0 then -x else x }

  lemma FeedbackShrinks(delayed: real, gain: real)
    ensures 0.0 <= gain < 1.0 ==> Abs(delayed * gain) <= Abs(delayed)
    ensures 0.0 <= gain < 1.0 && delayed != 0.0 ==> Abs(delayed * gain) < Abs(delayed)
  {
    if 0.0 <= gain < 1.0 {
      if delayed >= 0.0 {
        MulNonNegative(delayed, gain);
        MulNonNegative(delayed, 1.0 - gain);
      } else {
        MulNonNegative(-delayed, gain);
        MulNonNegative(-delayed, 1.0 - gain);
      }
    }
  }

  /** The right channel's LFO phase: the shared phase plus the offset,
      wrapped once. Since the offset may exceed one cycle and only one
      cycle is subtracted, the result stays within `[0, 1]` exactly when
      `phase + offset <= 2`, and can reach 1.1. */
  function RightPhase(phase: real, p: Params): (r: real)
    ensures 0.0 <= phase <= 1.0 && 0.0 <= p.phaseOffset <= 1.1 ==> 0.0 <= r <= 1.1
    ensures 0.0 <= phase + p.phaseOffset ==> (r <= 1.0 <==> phase + p.phaseOffset <= 2.0)
  {
    WrapPhase(phase + p.phaseOffset)
  }

  /** The dry/wet mix of one output sample. */
  function Mix(input: real, delayed: real, dryWet: real): (r: real)
    ensures dryWet == 0.0 ==> r == input
    ensures dryWet == 1.0 ==> r == delayed
    ensures r == LinInterp(input, delayed, dryWet)
    ensures 0.0 <= dryWet <= 1.0 ==> Min(input, delayed) <= r <= Max(input, delayed)
  {
    input * (1.0 - dryWet) + delayed * dryWet
  }

  /** `mCircularBufferLenght`: `sampleRate * MAX_DELAY_TIME` truncated to
      int. The ring has a slot exactly when the sample rate is at least
      `MinSampleRate`, and then it holds at least half a second. */
  function BufferLength(sampleRate: real): (n: int)
    ensures 0.0 <= sampleRate ==> 0 <= n && n as real <= sampleRate * MaxDelayTime < n as real + 1.0
    ensures 0.0 <= sampleRate ==> (1 <= n <==> MinSampleRate <= sampleRate)
    ensures MinSampleRate <= sampleRate ==> sampleRate / 2.0 <= n as real
  {
    TruncToInt(sampleRate * MaxDelayTime)
  }

  /** The delay in samples for one channel: the sample rate times the
      delay time of the depth-scaled LFO value. */
  function DelaySamples(sampleRate: real, p: Params, lfoValue: real): (d: real)
    requires MinSampleRate <= sampleRate && ParamsInRange(p)
    requires -1.0 <= lfoValue <= 1.0
    ensures 0.0 < d <= BufferLength(sampleRate) as real
    ensures p.depth == 0.0 ==> d == sampleRate * DelayTime(p.effectType, 0.0)
  {
    var v := lfoValue * p.depth;
    assert -1.0 <= v <= 1.0 by {
      if lfoValue >= 0.0 {
        MulNonNegative(lfoValue, p.depth);
        MulNonNegative(1.0 - lfoValue, p.depth);
        MulNonNegative(lfoValue, 1.0 - p.depth);
      } else {
        MulNonNegative(-lfoValue, p.depth);
        MulNonNegative(1.0 + lfoValue, p.depth);
        MulNonNegative(-lfoValue, 1.0 - p.depth);
      }
    }
    var t := DelayTime(p.effectType, v);
    assert 0.0 < sampleRate * t <= sampleRate / 2.0 by {
      MulNonNegative(sampleRate, 0.5 - t);
      MulNonNegative(sampleRate - MinSampleRate, t);
    }
    sampleRate * t
  }

  /** The engine state the per-sample loop reads and updates: the two
      rings, the shared write head, the LFO phase and the two feedback
      samples. */
  datatype Engine = Engine(
    left: seq<real>,
    right: seq<real>,
    writeHead: int,
    lfoPhase: real,
    feedbackLeft: real,
    feedbackRight: real
  )

  /** A prepared engine at a usable sample rate: both rings have the length
      the sample rate gives, and the write head is a slot of them. */
  predicate Ready(s: Engine, sampleRate: real)
  {
    && MinSampleRate <= sampleRate
    && |s.left| == BufferLength(sampleRate)
    && |s.right| == |s.left|
    && 0 <= s.writeHead < |s.left|
  }

  /** The state right after a prepare: both rings silent, write head and
      LFO phase at 0 (the feedback samples are whatever they were). */
  predicate Cleared(s: Engine)
  {
    && s.writeHead == 0
    && s.lfoPhase == 0.0
    && (forall k :: 0 <= k < |s.left| ==> s.left[k] == 0.0)
    && (forall k :: 0 <= k < |s.right| ==> s.right[k] == 0.0)
  }

  /** What one sample of processing produces. */
  datatype StepResult = StepResult(state: Engine, delayedLeft: real, delayedRight: real, outLeft: real, outRight: real)

  /** One iteration of the per-sample loop: write input plus feedback at the
      write head, read each ring behind the write head by the delay the
      LFO gives, feed the delayed sample back, advance the write head and
      the phase, and mix. */
  function Step(s: Engine, sampleRate: real, p: Params, lfo: real -> real, inLeft: real, inRight: real): (r: StepResult)
    requires Ready(s, sampleRate) && ParamsInRange(p) && LfoBounded(lfo)
    ensures Ready(r.state, sampleRate)
    ensures r.state.left[s.writeHead] == inLeft + s.feedbackLeft
    ensures r.state.right[s.writeHead] == inRight + s.feedbackRight
    ensures forall k :: 0 <= k < |s.left| && k != s.writeHead ==> r.state.left[k] == s.left[k]
    ensures forall k :: 0 <= k < |s.right| && k != s.writeHead ==> r.state.right[k] == s.right[k]
    ensures r.state.writeHead == Slot(s.writeHead, 1, |s.left|)
    ensures r.state.lfoPhase == AdvancePhase(s.lfoPhase, p.rate, sampleRate)
    ensures r.delayedLeft == ReadBehind(r.state.left, s.writeHead, DelaySamples(sampleRate, p, lfo(s.lfoPhase)))
    ensures r.delayedRight == ReadBehind(r.state.right, s.writeHead, DelaySamples(sampleRate, p, lfo(RightPhase(s.lfoPhase, p))))
    ensures r.state.feedbackLeft == Feedback(r.delayedLeft, p.feedback)
    ensures r.state.feedbackRight == Feedback(r.delayedRight, p.feedback)
    ensures r.outLeft == Mix(inLeft, r.delayedLeft, p.dryWet)
    ensures r.outRight == Mix(inRight, r.delayedRight, p.dryWet)
  {
    var left := WriteThenRead(s.left, s.writeHead, inLeft, s.feedbackLeft,
      DelaySamples(sampleRate, p, lfo(s.lfoPhase)));
    var right := WriteThenRead(s.right, s.writeHead, inRight, s.feedbackRight,
      DelaySamples(sampleRate, p, lfo(RightPhase(s.lfoPhase, p))));
    var next := Engine(left.ring, right.ring, NextWriteHead(s.writeHead, |s.left|),
      AdvancePhase(s.lfoPhase, p.rate, sampleRate),
      Feedback(left.delayed, p.feedback), Feedback(right.delayed, p.feedback));
    StepResult(next, left.delayed, right.delayed,
      Mix(inLeft, left.delayed, p.dryWet), Mix(inRight, right.delayed, p.dryWet))
  }

  /** `Step` recognised from its parts: a next state and two delayed samples
      that are what one sample of the loop computes. */
  lemma StepFromParts(s: Engine, sampleRate: real, p: Params, lfo: real -> real, inLeft: real, inRight: real,
                      next: Engine, delayedLeft: real, delayedRight: real)
    requires Ready(s, sampleRate) && ParamsInRange(p) && LfoBounded(lfo)
    requires next.left == s.left[s.writeHead := inLeft + s.feedbackLeft]
    requires next.right == s.right[s.writeHead := inRight + s.feedbackRight]
    requires next.writeHead == NextWriteHead(s.writeHead, |s.left|)
    requires next.lfoPhase == AdvancePhase(s.lfoPhase, p.rate, sampleRate)
    requires delayedLeft == ReadBehind(next.left, s.writeHead, DelaySamples(sampleRate, p, lfo(s.lfoPhase)))
    requires delayedRight == ReadBehind(next.right, s.writeHead, DelaySamples(sampleRate, p, lfo(RightPhase(s.lfoPhase, p))))
    requires next.feedbackLeft == Feedback(delayedLeft, p.feedback)
    requires next.feedbackRight == Feedback(delayedRight, p.feedback)
    ensures Step(s, sampleRate, p, lfo, inLeft, inRight)
      == StepResult(next, delayedLeft, delayedRight, Mix(inLeft, delayedLeft, p.dryWet), Mix(inRight, delayedRight, p.dryWet))
  {
  }

  /** What a block of samples produces: the final state and both output
      channels. */
  datatype RunResult = RunResult(state: Engine, outLeft: seq<real>, outRight: seq<real>)

  /** The per-sample loop over a whole block, as a fold of `Step`. */
  function Run(s: Engine, sampleRate: real, p: Params, lfo: real -> real, inLeft: seq<real>, inRight: seq<real>): (r: RunResult)
    requires Ready(s, sampleRate) && ParamsInRange(p) && LfoBounded(lfo)
    requires |inLeft| == |inRight|
    ensures Ready(r.state, sampleRate)
    ensures |r.state.left| == |s.left|
    ensures |r.outLeft| == |inLeft| && |r.outRight| == |inRight|
    decreases |inLeft|
  {
    if |inLeft| == 0 then RunResult(s, [], [])
    else
      var n := |inLeft| - 1;
      var prev := Run(s, sampleRate, p, lfo, inLeft[..n], inRight[..n]);
      var step := Step(prev.state, sampleRate, p, lfo, inLeft[n], inRight[n]);
      RunResult(step.state, prev.outLeft + [step.outLeft], prev.outRight + [step.outRight])
  }

  /** An empty block changes nothing. */
  lemma RunEmpty(s: Engine, sampleRate: real, p: Params, lfo: real -> real)
    requires Ready(s, sampleRate) && ParamsInRange(p) && LfoBounded(lfo)
    ensures Run(s, sampleRate, p, lfo, [], []) == RunResult(s, [], [])
  {
  }

  /** One more sample appended to a block is one more `Step`. */
  lemma RunSnoc(s: Engine, sampleRate: real, p: Params, lfo: real -> real, inLeft: seq<real>, inRight: seq<real>, i: int)
    requires Ready(s, sampleRate) && ParamsInRange(p) && LfoBounded(lfo)
    requires |inLeft| == |inRight| && 0 <= i < |inLeft|
    ensures var prev := Run(s, sampleRate, p, lfo, inLeft[..i], inRight[..i]);
      var step := Step(prev.state, sampleRate, p, lfo, inLeft[i], inRight[i]);
      Run(s, sampleRate, p, lfo, inLeft[..i + 1], inRight[..i + 1])
        == RunResult(step.state, prev.outLeft + [step.outLeft], prev.outRight + [step.outRight])
  {
    assert inLeft[..i + 1][..i] == inLeft[..i] && inRight[..i + 1][..i] == inRight[..i];
  }
}

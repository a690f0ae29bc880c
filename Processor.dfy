/** The audio processor object: the two circular delay buffers it owns and
    the state it carries from one host callback to the next, with the
    prepare step and the in-place block processor. */
module Processor {
  import opened DelayLine
  import opened Modulation

  /** The largest C++ `int`. */
  const IntMax: int := 0x7FFF_FFFF

  /** Sets every element of `a` to 0 (`zeromem`). */
  method ZeroMem(a: array<real>)
    modifies a
    ensures forall k :: 0 <= k < a.Length ==> a[k] == 0.0
  {
    var i := 0;
    while i < a.Length
      invariant 0 <= i <= a.Length
      invariant forall k :: 0 <= k < i ==> a[k] == 0.0
    {
      a[i] := 0.0;
      i := i + 1;
    }
  }

  /** Overwriting the first not yet processed sample of a block with its
      output moves the boundary between output and input on by one. */
  lemma Splice(out: seq<real>, input: seq<real>, i: int, v: real)
    requires |out| == i < |input|
    ensures (out + input[i..])[i] == input[i]
    ensures (out + input[i..])[i := v] == (out + [v]) + input[i + 1..]
  {
  }

  class FroggProcessor {
    /** The host's current sample rate (`getSampleRate()`). */
    var sampleRate: real
    /** The two rings; null until the first prepare. */
    var circularBufferLeft: array?<real>
    var circularBufferRight: array?<real>
    var writeHead: int
    var bufferLength: int
    var feedbackLeft: real
    var feedbackRight: real
    var lfoPhase: real

    /** The object invariant: both rings exist or neither does; once they
        do, they are distinct, have the length the sample rate gives, and
        the write head is one of their slots. */
    ghost predicate Valid()
      reads this
    {
      && (circularBufferLeft == null <==> circularBufferRight == null)
      && 0 <= writeHead
      && (circularBufferLeft != null ==>
            && circularBufferRight != null
            && circularBufferLeft != circularBufferRight
            && circularBufferLeft.Length == bufferLength
            && circularBufferRight.Length == bufferLength
            && bufferLength == BufferLength(sampleRate)
            && (0 < bufferLength ==> writeHead < bufferLength))
    }

    /** The rings have been allocated. */
    predicate Prepared()
      reads this
    {
      circularBufferLeft != null
    }

    /** Prepared at a sample rate the block processor can run at. */
    ghost predicate ReadyToProcess()
      reads this
    {
      Valid() && Prepared() && MinSampleRate <= sampleRate
    }

    /** The engine state held by this object. */
    ghost function State(): (e: Engine)
      reads this, circularBufferLeft, circularBufferRight
      requires ReadyToProcess()
      ensures Ready(e, sampleRate)
    {
      Engine(circularBufferLeft[..], circularBufferRight[..], writeHead, lfoPhase, feedbackLeft, feedbackRight)
    }

    /** The constructor: no rings yet, everything else zero. */
    constructor ()
      ensures Valid() && !Prepared()
      ensures writeHead == 0 && bufferLength == 0
      ensures feedbackLeft == 0.0 && feedbackRight == 0.0
      ensures lfoPhase == 0.0
    {
      sampleRate := 0.0;
      circularBufferLeft := null;
      circularBufferRight := null;
      writeHead := 0;
      bufferLength := 0;
      feedbackLeft := 0.0;
      feedbackRight := 0.0;
      lfoPhase := 0.0;
    }

    /** `prepareToPlay`: allocate both rings for two seconds at the new
        sample rate, zero them, and reset the write head and the LFO phase.
        The feedback samples are left as they were. */
    method PrepareToPlay(newSampleRate: real, samplesPerBlock: int)
      requires -0.5 < newSampleRate && newSampleRate * MaxDelayTime < IntMax as real + 1.0
      modifies this
      ensures Valid() && Prepared()
      ensures fresh(circularBufferLeft) && fresh(circularBufferRight)
      ensures sampleRate == newSampleRate
      ensures bufferLength == BufferLength(newSampleRate) <= IntMax
      ensures bufferLength == 0 <==> newSampleRate < MinSampleRate
      ensures forall k :: 0 <= k < bufferLength ==> circularBufferLeft[k] == 0.0
      ensures forall k :: 0 <= k < bufferLength ==> circularBufferRight[k] == 0.0
      ensures writeHead == 0 && lfoPhase == 0.0
      ensures feedbackLeft == old(feedbackLeft) && feedbackRight == old(feedbackRight)
      ensures MinSampleRate <= newSampleRate ==> ReadyToProcess() && Cleared(State())
    {
      sampleRate := newSampleRate;
      lfoPhase := 0.0;
      bufferLength := TruncToInt(newSampleRate * MaxDelayTime);
      var left := new real[bufferLength];
      ZeroMem(left);
      var right := new real[bufferLength];
      ZeroMem(right);
      circularBufferLeft := left;
      circularBufferRight := right;
      writeHead := 0;
    }

    /** One iteration of the per-sample loop of `processBlock`. */
    method ProcessSample(inLeft: real, inRight: real, p: Params, lfo: real -> real) returns (outLeft: real, outRight: real)
      requires ReadyToProcess() && ParamsInRange(p) && LfoBounded(lfo)
      modifies this`writeHead, this`lfoPhase, this`feedbackLeft, this`feedbackRight
      modifies circularBufferLeft, circularBufferRight
      ensures ReadyToProcess()
      ensures var r := Step(old(State()), sampleRate, p, lfo, inLeft, inRight);
        State() == r.state && outLeft == r.outLeft && outRight == r.outRight
    {
      ghost var s := State();
      var left, right := circularBufferLeft, circularBufferRight;

      // write input plus the previous feedback at the write head
      left[writeHead] := inLeft + feedbackLeft;
      right[writeHead] := inRight + feedbackRight;
      assert left[..] == s.left[s.writeHead := inLeft + s.feedbackLeft];
      assert right[..] == s.right[s.writeHead := inRight + s.feedbackRight];

      // both LFO phases from the current phase, the right one wrapped once
      var lfoOutLeft := lfo(lfoPhase);
      var lfoOutRight := lfo(RightPhase(lfoPhase, p));

      // advance the shared phase, wrapped once
      lfoPhase := AdvancePhase(lfoPhase, p.rate, sampleRate);

      // depth scaling, mapping to a delay time, conversion to samples
      var delayTimeSamplesLeft := DelaySamples(sampleRate, p, lfoOutLeft);
      var delayTimeSamplesRight := DelaySamples(sampleRate, p, lfoOutRight);

      // read heads behind the write head, split into the two neighbouring
      // slots and a fraction, and read by linear interpolation
      var iLeft := SplitReadHead(ReadHead(writeHead, delayTimeSamplesLeft, bufferLength), bufferLength);
      var iRight := SplitReadHead(ReadHead(writeHead, delayTimeSamplesRight, bufferLength), bufferLength);
      var delayedLeft := LinInterp(left[iLeft.x], left[iLeft.x1], iLeft.frac);
      var delayedRight := LinInterp(right[iRight.x], right[iRight.x1], iRight.frac);
      assert delayedLeft == ReadBehind(left[..], writeHead, delayTimeSamplesLeft);
      assert delayedRight == ReadBehind(right[..], writeHead, delayTimeSamplesRight);
      // from here on the interpolating read is matched by name against `Step`
      hide ReadBehind;

      feedbackLeft := Feedback(delayedLeft, p.feedback);
      feedbackRight := Feedback(delayedRight, p.feedback);

      writeHead := NextWriteHead(writeHead, bufferLength);

      outLeft := Mix(inLeft, delayedLeft, p.dryWet);
      outRight := Mix(inRight, delayedRight, p.dryWet);
      assert ReadyToProcess();
      StepFromParts(s, sampleRate, p, lfo, inLeft, inRight, State(), delayedLeft, delayedRight);
    }

    /** One pass of the loop of `processBlock`: sample `i` of both channels
        is processed and overwritten with its output. */
    method ProcessFrame(leftChannel: array<real>, rightChannel: array<real>, i: int, p: Params, lfo: real -> real)
      requires ReadyToProcess() && ParamsInRange(p) && LfoBounded(lfo)
      requires 0 <= i < leftChannel.Length == rightChannel.Length
      requires leftChannel != rightChannel
      requires leftChannel != circularBufferLeft && leftChannel != circularBufferRight
      requires rightChannel != circularBufferLeft && rightChannel != circularBufferRight
      modifies this`writeHead, this`lfoPhase, this`feedbackLeft, this`feedbackRight
      modifies circularBufferLeft, circularBufferRight, leftChannel, rightChannel
      ensures ReadyToProcess()
      ensures var r := Step(old(State()), sampleRate, p, lfo, old(leftChannel[i]), old(rightChannel[i]));
        && State() == r.state
        && leftChannel[..] == old(leftChannel[..])[i := r.outLeft]
        && rightChannel[..] == old(rightChannel[..])[i := r.outRight]
    {
      var outLeft, outRight := ProcessSample(leftChannel[i], rightChannel[i], p, lfo);
      leftChannel[i] := outLeft;
      rightChannel[i] := outRight;
    }

    /** `processBlock`: runs the per-sample loop over both channels,
        overwriting each input sample with its output. */
    method ProcessBlock(leftChannel: array<real>, rightChannel: array<real>, p: Params, lfo: real -> real)
      requires ReadyToProcess() && ParamsInRange(p) && LfoBounded(lfo)
      requires leftChannel.Length == rightChannel.Length
      requires leftChannel != rightChannel
      requires leftChannel != circularBufferLeft && leftChannel != circularBufferRight
      requires rightChannel != circularBufferLeft && rightChannel != circularBufferRight
      modifies this`writeHead, this`lfoPhase, this`feedbackLeft, this`feedbackRight
      modifies circularBufferLeft, circularBufferRight, leftChannel, rightChannel
      ensures ReadyToProcess()
      ensures var r := Run(old(State()), sampleRate, p, lfo, old(leftChannel[..]), old(rightChannel[..]));
        State() == r.state && leftChannel[..] == r.outLeft && rightChannel[..] == r.outRight
    {
      ghost var s := State();
      ghost var inLeft := leftChannel[..];
      ghost var inRight := rightChannel[..];
      ghost var done := Run(s, sampleRate, p, lfo, [], []);
      assert inLeft[..0] == [] && inRight[..0] == [];
      assert done == RunResult(s, [], []);
      assert inLeft[0..] == inLeft && inRight[0..] == inRight;
      // The loop is proved from the contracts of ProcessFrame, RunSnoc and
      // Splice alone; no function body is needed below.
      hide *;
      var i := 0;
      while i < leftChannel.Length
        invariant 0 <= i <= leftChannel.Length
        invariant ReadyToProcess()
        invariant done == Run(s, sampleRate, p, lfo, inLeft[..i], inRight[..i])
        invariant State() == done.state
        invariant leftChannel[..] == done.outLeft + inLeft[i..]
        invariant rightChannel[..] == done.outRight + inRight[i..]
      {
        Splice(done.outLeft, inLeft, i, Step(done.state, sampleRate, p, lfo, inLeft[i], inRight[i]).outLeft);
        Splice(done.outRight, inRight, i, Step(done.state, sampleRate, p, lfo, inLeft[i], inRight[i]).outRight);
        RunSnoc(s, sampleRate, p, lfo, inLeft, inRight, i);
        ProcessFrame(leftChannel, rightChannel, i, p, lfo);
        done := Run(s, sampleRate, p, lfo, inLeft[..i + 1], inRight[..i + 1]);
        i := i + 1;
      }
      assert inLeft[..i] == inLeft && inRight[..i] == inRight;
      assert inLeft[i..] == [] && inRight[i..] == [];
    }
  }
}

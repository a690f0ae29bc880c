/** What the per-sample loop guarantees over a whole block: where the write
    head ends up, what the rings hold, that outputs depend only on earlier
    inputs, that a fully dry mix passes the input through, that the LFO
    phase stays in one cycle, and the echo pattern of a fixed delay with
    feedback. */
module EngineProperties {
  import opened DelayLine
  import opened Modulation

  /** Running the first `m` samples of a block gives the first `m` outputs
      of running the whole block. */
  lemma {:induction false} RunPrefix(s: Engine, sampleRate: real, p: Params, lfo: real -> real,
                                     inLeft: seq<real>, inRight: seq<real>, m: int)
    requires Ready(s, sampleRate) && ParamsInRange(p) && LfoBounded(lfo)
    requires |inLeft| == |inRight| && 0 <= m <= |inLeft|
    ensures Run(s, sampleRate, p, lfo, inLeft[..m], inRight[..m]).outLeft
         == Run(s, sampleRate, p, lfo, inLeft, inRight).outLeft[..m]
    ensures Run(s, sampleRate, p, lfo, inLeft[..m], inRight[..m]).outRight
         == Run(s, sampleRate, p, lfo, inLeft, inRight).outRight[..m]
    decreases |inLeft|
  {
    hide Step, Run, BufferLength;
    if m == |inLeft| {
      assert inLeft[..m] == inLeft && inRight[..m] == inRight;
    } else {
      var n := |inLeft| - 1;
      RunPrefix(s, sampleRate, p, lfo, inLeft[..n], inRight[..n], m);
      assert inLeft[..n][..m] == inLeft[..m] && inRight[..n][..m] == inRight[..m];
      RunSnoc(s, sampleRate, p, lfo, inLeft, inRight, n);
      assert inLeft[..n + 1] == inLeft && inRight[..n + 1] == inRight;
      var prev := Run(s, sampleRate, p, lfo, inLeft[..n], inRight[..n]);
      var whole := Run(s, sampleRate, p, lfo, inLeft, inRight);
      assert whole.outLeft[..n] == prev.outLeft && whole.outRight[..n] == prev.outRight;
      assert whole.outLeft[..m] == prev.outLeft[..m] && whole.outRight[..m] == prev.outRight[..m];
    }
  }

  /** Output sample `n` is what one `Step` produces from the state left by
      the samples before it, on input sample `n`: later input never
      changes an earlier output. */
  lemma RunOutputAt(s: Engine, sampleRate: real, p: Params, lfo: real -> real,
                    inLeft: seq<real>, inRight: seq<real>, n: int)
    requires Ready(s, sampleRate) && ParamsInRange(p) && LfoBounded(lfo)
    requires |inLeft| == |inRight| && 0 <= n < |inLeft|
    ensures var step := Step(Run(s, sampleRate, p, lfo, inLeft[..n], inRight[..n]).state, sampleRate, p, lfo, inLeft[n], inRight[n]);
      && Run(s, sampleRate, p, lfo, inLeft, inRight).outLeft[n] == step.outLeft
      && Run(s, sampleRate, p, lfo, inLeft, inRight).outRight[n] == step.outRight
  {
    hide Step, Run, BufferLength;
    RunPrefix(s, sampleRate, p, lfo, inLeft, inRight, n + 1);
    RunSnoc(s, sampleRate, p, lfo, inLeft, inRight, n);
    var prev := Run(s, sampleRate, p, lfo, inLeft[..n], inRight[..n]);
    var whole := Run(s, sampleRate, p, lfo, inLeft, inRight);
    var upTo := Run(s, sampleRate, p, lfo, inLeft[..n + 1], inRight[..n + 1]);
    assert whole.outLeft[n] == upTo.outLeft[n] && whole.outRight[n] == upTo.outRight[n];
    assert |prev.outLeft| == n && |prev.outRight| == n;
  }

  /** After `n` samples the write head has advanced `n` slots round the
      ring. */
  lemma {:induction false} RunWriteHead(s: Engine, sampleRate: real, p: Params, lfo: real -> real,
                                        inLeft: seq<real>, inRight: seq<real>)
    requires Ready(s, sampleRate) && ParamsInRange(p) && LfoBounded(lfo)
    requires |inLeft| == |inRight|
    ensures Run(s, sampleRate, p, lfo, inLeft, inRight).state.writeHead == Slot(s.writeHead, |inLeft|, |s.left|)
    decreases |inLeft|
  {
    hide Step, Run, BufferLength;
    if |inLeft| == 0 {
      RunEmpty(s, sampleRate, p, lfo);
      assert inLeft == [] && inRight == [];
    } else {
      var n := |inLeft| - 1;
      RunWriteHead(s, sampleRate, p, lfo, inLeft[..n], inRight[..n]);
      RunSnoc(s, sampleRate, p, lfo, inLeft, inRight, n);
      assert inLeft[..n + 1] == inLeft && inRight[..n + 1] == inRight;
    }
  }

  /** The write head after a block of `n` samples is `(writeHead + n) mod
      length`: it never leaves the ring. */
  lemma RunWriteHeadMod(s: Engine, sampleRate: real, p: Params, lfo: real -> real,
                        inLeft: seq<real>, inRight: seq<real>)
    requires Ready(s, sampleRate) && ParamsInRange(p) && LfoBounded(lfo)
    requires |inLeft| == |inRight|
    ensures Run(s, sampleRate, p, lfo, inLeft, inRight).state.writeHead == (s.writeHead + |inLeft|) % |s.left|
  {
    hide Step, Run, BufferLength;
    RunWriteHead(s, sampleRate, p, lfo, inLeft, inRight);
    SlotIsMod(s.writeHead, |inLeft|, |s.left|);
  }

  /** With the mix fully dry, every output sample is its input sample. */
  lemma {:induction false} RunDryIsIdentity(s: Engine, sampleRate: real, p: Params, lfo: real -> real,
                                            inLeft: seq<real>, inRight: seq<real>)
    requires Ready(s, sampleRate) && ParamsInRange(p) && LfoBounded(lfo)
    requires |inLeft| == |inRight| && p.dryWet == 0.0
    ensures Run(s, sampleRate, p, lfo, inLeft, inRight).outLeft == inLeft
    ensures Run(s, sampleRate, p, lfo, inLeft, inRight).outRight == inRight
    decreases |inLeft|
  {
    hide Step, Run, BufferLength;
    if |inLeft| == 0 {
      RunEmpty(s, sampleRate, p, lfo);
      assert inLeft == [] && inRight == [];
    } else {
      var n := |inLeft| - 1;
      RunDryIsIdentity(s, sampleRate, p, lfo, inLeft[..n], inRight[..n]);
      RunSnoc(s, sampleRate, p, lfo, inLeft, inRight, n);
      assert inLeft[..n + 1] == inLeft && inRight[..n + 1] == inRight;
      assert inLeft[..n] + [inLeft[n]] == inLeft;
      assert inRight[..n] + [inRight[n]] == inRight;
    }
  }

  /** The shared LFO phase stays within one cycle, `[0, 1]`, as long as the
      rate does not exceed the sample rate. */
  lemma {:induction false} RunPhaseInUnit(s: Engine, sampleRate: real, p: Params, lfo: real -> real,
                                          inLeft: seq<real>, inRight: seq<real>)
    requires Ready(s, sampleRate) && ParamsInRange(p) && LfoBounded(lfo)
    requires |inLeft| == |inRight|
    requires 0.0 <= s.lfoPhase <= 1.0 && p.rate <= sampleRate
    ensures 0.0 <= Run(s, sampleRate, p, lfo, inLeft, inRight).state.lfoPhase <= 1.0
    decreases |inLeft|
  {
    hide Step, Run, BufferLength;
    if |inLeft| == 0 {
      RunEmpty(s, sampleRate, p, lfo);
      assert inLeft == [] && inRight == [];
    } else {
      var n := |inLeft| - 1;
      RunPhaseInUnit(s, sampleRate, p, lfo, inLeft[..n], inRight[..n]);
      RunSnoc(s, sampleRate, p, lfo, inLeft, inRight, n);
      assert inLeft[..n + 1] == inLeft && inRight[..n + 1] == inRight;
    }
  }

  /** Within one turn of the ring, a block leaves in the slot `j` places
      after the starting write head the `j`-th input plus the feedback
      sample pending at that moment. */
  lemma {:induction false} RunRingWritten(s: Engine, sampleRate: real, p: Params, lfo: real -> real,
                                          inLeft: seq<real>, inRight: seq<real>)
    requires Ready(s, sampleRate) && ParamsInRange(p) && LfoBounded(lfo)
    requires |inLeft| == |inRight| <= |s.left|
    ensures forall j :: 0 <= j < |inLeft| ==>
      Run(s, sampleRate, p, lfo, inLeft, inRight).state.left[Slot(s.writeHead, j, |s.left|)]
        == inLeft[j] + Run(s, sampleRate, p, lfo, inLeft[..j], inRight[..j]).state.feedbackLeft
    ensures forall j :: 0 <= j < |inRight| ==>
      Run(s, sampleRate, p, lfo, inLeft, inRight).state.right[Slot(s.writeHead, j, |s.left|)]
        == inRight[j] + Run(s, sampleRate, p, lfo, inLeft[..j], inRight[..j]).state.feedbackRight
    decreases |inLeft|
  {
    hide Step, Run, Slot, ReadBehind, BufferLength;
    var len := |s.left|;
    if |inLeft| > 0 {
      var n := |inLeft| - 1;
      var preL, preR := inLeft[..n], inRight[..n];
      RunRingWritten(s, sampleRate, p, lfo, preL, preR);
      RunWriteHead(s, sampleRate, p, lfo, preL, preR);
      RunSnoc(s, sampleRate, p, lfo, inLeft, inRight, n);
      assert inLeft[..n + 1] == inLeft && inRight[..n + 1] == inRight;
      var prev := Run(s, sampleRate, p, lfo, preL, preR).state;
      var next := Run(s, sampleRate, p, lfo, inLeft, inRight).state;
      assert next == Step(prev, sampleRate, p, lfo, inLeft[n], inRight[n]).state;
      assert prev.writeHead == Slot(s.writeHead, n, len);
      assert next.left[Slot(s.writeHead, n, len)] == inLeft[n] + prev.feedbackLeft;
      assert next.right[Slot(s.writeHead, n, len)] == inRight[n] + prev.feedbackRight;
      forall j | 0 <= j < n
        ensures next.left[Slot(s.writeHead, j, len)] == inLeft[j] + Run(s, sampleRate, p, lfo, inLeft[..j], inRight[..j]).state.feedbackLeft
        ensures next.right[Slot(s.writeHead, j, len)] == inRight[j] + Run(s, sampleRate, p, lfo, inLeft[..j], inRight[..j]).state.feedbackRight
      {
        SlotInjective(s.writeHead, j, n, len);
        assert preL[..j] == inLeft[..j] && preR[..j] == inRight[..j];
        assert preL[j] == inLeft[j] && preR[j] == inRight[j];
      }
    }
  }

  /** The slots a block has not reached yet keep their old contents. */
  lemma {:induction false} RunRingUntouched(s: Engine, sampleRate: real, p: Params, lfo: real -> real,
                                            inLeft: seq<real>, inRight: seq<real>)
    requires Ready(s, sampleRate) && ParamsInRange(p) && LfoBounded(lfo)
    requires |inLeft| == |inRight| <= |s.left|
    ensures forall j :: |inLeft| <= j < |s.left| ==>
      Run(s, sampleRate, p, lfo, inLeft, inRight).state.left[Slot(s.writeHead, j, |s.left|)]
        == s.left[Slot(s.writeHead, j, |s.left|)]
    ensures forall j :: |inLeft| <= j < |s.left| ==>
      Run(s, sampleRate, p, lfo, inLeft, inRight).state.right[Slot(s.writeHead, j, |s.left|)]
        == s.right[Slot(s.writeHead, j, |s.left|)]
    decreases |inLeft|
  {
    hide Step, Run, Slot, ReadBehind, BufferLength;
    var len := |s.left|;
    if |inLeft| == 0 {
      RunEmpty(s, sampleRate, p, lfo);
      assert inLeft == [] && inRight == [];
    } else {
      var n := |inLeft| - 1;
      var preL, preR := inLeft[..n], inRight[..n];
      RunRingUntouched(s, sampleRate, p, lfo, preL, preR);
      RunWriteHead(s, sampleRate, p, lfo, preL, preR);
      RunSnoc(s, sampleRate, p, lfo, inLeft, inRight, n);
      assert inLeft[..n + 1] == inLeft && inRight[..n + 1] == inRight;
      var prev := Run(s, sampleRate, p, lfo, preL, preR).state;
      var next := Run(s, sampleRate, p, lfo, inLeft, inRight).state;
      assert next == Step(prev, sampleRate, p, lfo, inLeft[n], inRight[n]).state;
      assert prev.writeHead == Slot(s.writeHead, n, len);
      forall j | n < j < len
        ensures next.left[Slot(s.writeHead, j, len)] == s.left[Slot(s.writeHead, j, len)]
        ensures next.right[Slot(s.writeHead, j, len)] == s.right[Slot(s.writeHead, j, len)]
      {
        SlotInjective(s.writeHead, n, j, len);
      }
    }
  }

  /** With a fully wet mix the output is the delayed sample, so the sample
      pending for feedback after `j` samples is output `j - 1` scaled by
      the feedback gain. */
  lemma WetFeedback(s: Engine, sampleRate: real, p: Params, lfo: real -> real,
                    inLeft: seq<real>, inRight: seq<real>, j: int)
    requires Ready(s, sampleRate) && ParamsInRange(p) && LfoBounded(lfo)
    requires |inLeft| == |inRight| && 1 <= j <= |inLeft| && p.dryWet == 1.0
    ensures Run(s, sampleRate, p, lfo, inLeft[..j], inRight[..j]).state.feedbackLeft
         == Feedback(Run(s, sampleRate, p, lfo, inLeft, inRight).outLeft[j - 1], p.feedback)
    ensures Run(s, sampleRate, p, lfo, inLeft[..j], inRight[..j]).state.feedbackRight
         == Feedback(Run(s, sampleRate, p, lfo, inLeft, inRight).outRight[j - 1], p.feedback)
  {
    hide Step, Run, Feedback, BufferLength;
    var i := j - 1;
    RunSnoc(s, sampleRate, p, lfo, inLeft, inRight, i);
    RunOutputAt(s, sampleRate, p, lfo, inLeft, inRight, i);
  }

  /** With depth 0 and a whole-number delay of `delay` samples, one sample
      reads exactly the slot `delay` places behind the write head, as the
      ring stands after the write. */
  lemma StepReadsWhole(s: Engine, sampleRate: real, p: Params, lfo: real -> real,
                       inLeft: real, inRight: real, delay: int)
    requires Ready(s, sampleRate) && ParamsInRange(p) && LfoBounded(lfo)
    requires p.depth == 0.0 && 1 <= delay < |s.left| && sampleRate * DelayTime(p.effectType, 0.0) == delay as real
    ensures var step := Step(s, sampleRate, p, lfo, inLeft, inRight);
      step.delayedLeft == step.state.left[if delay <= s.writeHead then s.writeHead - delay else s.writeHead - delay + |s.left|]
  {
    hide Step, Slot, Feedback, ReadBehind, BufferLength, SplitReadHead, ReadHead;
    var step := Step(s, sampleRate, p, lfo, inLeft, inRight);
    assert step.delayedLeft == ReadBehind(step.state.left, s.writeHead, delay as real) by {
      assert DelaySamples(sampleRate, p, lfo(s.lfoPhase)) == delay as real;
    }
    ReadBehindWhole(step.state.left, s.writeHead, delay);
  }

  /** With a whole-number delay of `delay` samples (depth 0) and a fully
      wet mix, output `n` of a block started at write head 0 is the slot
      `delay` places behind slot `n`, as the ring stands after sample `n`. */
  lemma WetOutputReadsRing(s: Engine, sampleRate: real, p: Params, lfo: real -> real,
                           inLeft: seq<real>, inRight: seq<real>, delay: int, n: int)
    requires Ready(s, sampleRate) && ParamsInRange(p) && LfoBounded(lfo)
    requires s.writeHead == 0 && p.depth == 0.0 && p.dryWet == 1.0
    requires 1 <= delay < |s.left| && sampleRate * DelayTime(p.effectType, 0.0) == delay as real
    requires |inLeft| == |inRight| <= |s.left| && 0 <= n < |inLeft|
    ensures Run(s, sampleRate, p, lfo, inLeft, inRight).outLeft[n]
         == Run(s, sampleRate, p, lfo, inLeft[..n + 1], inRight[..n + 1]).state.left[
              if delay <= n then n - delay else n - delay + |s.left|]
  {
    hide Step, Run, Slot, Feedback, ReadBehind, BufferLength, SplitReadHead, ReadHead;
    var prev := Run(s, sampleRate, p, lfo, inLeft[..n], inRight[..n]).state;
    var step := Step(prev, sampleRate, p, lfo, inLeft[n], inRight[n]);
    var k := if delay <= n then n - delay else n - delay + |s.left|;
    assert prev.writeHead == n by {
      RunWriteHead(s, sampleRate, p, lfo, inLeft[..n], inRight[..n]);
      SlotOneTurn(0, n, |s.left|);
    }
    assert step.delayedLeft == step.state.left[k] by {
      StepReadsWhole(prev, sampleRate, p, lfo, inLeft[n], inRight[n], delay);
    }
    assert Run(s, sampleRate, p, lfo, inLeft, inRight).outLeft[n] == step.outLeft by {
      RunOutputAt(s, sampleRate, p, lfo, inLeft, inRight, n);
    }
    assert Run(s, sampleRate, p, lfo, inLeft[..n + 1], inRight[..n + 1]).state == step.state by {
      RunSnoc(s, sampleRate, p, lfo, inLeft, inRight, n);
    }
  }

  /** A fixed whole-number delay of `delay` samples (depth 0), a fully wet
      mix, and silent rings after a prepare: output `n` is silence for the
      first `delay` samples, and from then on the input `delay` samples
      earlier plus the fed-back sample, which is the feedback pending
      before the block for `n == delay` and otherwise the output
      `delay + 1` samples earlier scaled by the gain. So successive echoes
      are `delay + 1` samples apart. */
  lemma EchoRecurrence(s: Engine, sampleRate: real, p: Params, lfo: real -> real,
                       inLeft: seq<real>, inRight: seq<real>, delay: int, n: int)
    requires Ready(s, sampleRate) && ParamsInRange(p) && LfoBounded(lfo)
    requires Cleared(s) && p.depth == 0.0 && p.dryWet == 1.0
    requires 1 <= delay < |s.left| && sampleRate * DelayTime(p.effectType, 0.0) == delay as real
    requires |inLeft| == |inRight| <= |s.left| && 0 <= n < |inLeft|
    ensures Run(s, sampleRate, p, lfo, inLeft, inRight).outLeft[n]
         == if n < delay then 0.0
            else inLeft[n - delay] + (if n == delay then s.feedbackLeft
                                      else Feedback(Run(s, sampleRate, p, lfo, inLeft, inRight).outLeft[n - delay - 1], p.feedback))
  {
    hide Step, Run, Slot, Feedback, ReadBehind, BufferLength;
    var len := |s.left|;
    var out := Run(s, sampleRate, p, lfo, inLeft, inRight).outLeft;
    var upToL, upToR := inLeft[..n + 1], inRight[..n + 1];
    var ring := Run(s, sampleRate, p, lfo, upToL, upToR).state.left;
    WetOutputReadsRing(s, sampleRate, p, lfo, inLeft, inRight, delay, n);
    RunRingWritten(s, sampleRate, p, lfo, upToL, upToR);
    RunRingUntouched(s, sampleRate, p, lfo, upToL, upToR);
    if n < delay {
      var k := n - delay + len;
      SlotOneTurn(0, k, len);
      assert ring[Slot(0, k, len)] == s.left[k];
      assert out[n] == 0.0;
    } else {
      var k := n - delay;
      SlotOneTurn(0, k, len);
      assert upToL[..k] == inLeft[..k] && upToR[..k] == inRight[..k];
      var pending := Run(s, sampleRate, p, lfo, inLeft[..k], inRight[..k]).state.feedbackLeft;
      assert out[n] == inLeft[k] + pending by {
        assert ring[Slot(0, k, len)] == upToL[k] + pending;
      }
      if k == 0 {
        RunEmpty(s, sampleRate, p, lfo);
        assert inLeft[..k] == [] && inRight[..k] == [];
        assert pending == s.feedbackLeft;
      } else {
        WetFeedback(s, sampleRate, p, lfo, inLeft, inRight, k);
        assert pending == Feedback(out[k - 1], p.feedback);
      }
    }
  }

  /** At 48 kHz the rings hold 96000 samples, and with depth 0 the delay is
      the midpoint of each effect's range: 840 samples for the chorus, 144
      for the flanger. */
  lemma DepthZeroDelaysAt48k(p: Params, lfoValue: real)
    requires ParamsInRange(p) && p.depth == 0.0 && -1.0 <= lfoValue <= 1.0
    ensures BufferLength(48000.0) == 96000
    ensures DelaySamples(48000.0, p, lfoValue) == if p.effectType == 0 then 840.0 else 144.0
  {
    assert TruncToInt(96000.0) == 96000 by {
      assert (96000.0).Floor == 96000;
    }
  }

  /** A unit impulse through the chorus at 48 kHz with depth 0, a fully wet
      mix and no feedback, right after a prepare with no feedback pending:
      silence for 840 samples, then the impulse itself at sample 840. */
  lemma ChorusImpulseDelay(s: Engine, lfo: real -> real, inLeft: seq<real>, inRight: seq<real>)
    requires Ready(s, 48000.0) && Cleared(s) && s.feedbackLeft == 0.0 && LfoBounded(lfo)
    requires |inLeft| == |inRight| == 841
    requires inLeft[0] == 1.0 && forall i :: 1 <= i < 841 ==> inLeft[i] == 0.0
    ensures var out := Run(s, 48000.0, Params(1.0, 0.0, 10.0, 0.5, 0.0, 0), lfo, inLeft, inRight).outLeft;
      && (forall n :: 0 <= n < 840 ==> out[n] == 0.0)
      && out[840] == 1.0
  {
    hide Step, Run, Slot, ReadBehind, DelaySamples, DelayTime, BufferLength, Feedback;
    var p := Params(1.0, 0.0, 10.0, 0.5, 0.0, 0);
    var out := Run(s, 48000.0, p, lfo, inLeft, inRight).outLeft;
    assert |s.left| == 96000 && 48000.0 * DelayTime(p.effectType, 0.0) == 840.0 by {
      DepthZeroDelaysAt48k(p, 0.0);
      assert DelaySamples(48000.0, p, 0.0) == 48000.0 * DelayTime(p.effectType, 0.0);
    }
    forall n | 0 <= n < 840
      ensures out[n] == 0.0
    {
      EchoRecurrence(s, 48000.0, p, lfo, inLeft, inRight, 840, n);
    }
    EchoRecurrence(s, 48000.0, p, lfo, inLeft, inRight, 840, 840);
  }

  /** A unit impulse through the flanger at 48 kHz with depth 0, a fully
      wet mix and feedback 0.5, right after a prepare with no feedback
      pending: silence for 144 samples, then echoes of 1, 0.5 and 0.25
      at samples 144, 289 and 434, each 145 samples after the last. */
  lemma FlangerImpulseEchoes(s: Engine, lfo: real -> real, inLeft: seq<real>, inRight: seq<real>)
    requires Ready(s, 48000.0) && Cleared(s) && s.feedbackLeft == 0.0 && LfoBounded(lfo)
    requires |inLeft| == |inRight| == 435
    requires inLeft[0] == 1.0 && forall i :: 1 <= i < 435 ==> inLeft[i] == 0.0
    ensures var out := Run(s, 48000.0, Params(1.0, 0.0, 10.0, 0.5, 0.5, 1), lfo, inLeft, inRight).outLeft;
      && (forall n :: 0 <= n < 144 ==> out[n] == 0.0)
      && out[144] == 1.0 && out[145] == 0.0
      && out[289] == 0.5 && out[434] == 0.25
  {
    hide Step, Run, Slot, ReadBehind, DelaySamples, DelayTime, BufferLength;
    var p := Params(1.0, 0.0, 10.0, 0.5, 0.5, 1);
    var out := Run(s, 48000.0, p, lfo, inLeft, inRight).outLeft;
    assert |s.left| == 96000 && 48000.0 * DelayTime(p.effectType, 0.0) == 144.0 by {
      DepthZeroDelaysAt48k(p, 0.0);
      assert DelaySamples(48000.0, p, 0.0) == 48000.0 * DelayTime(p.effectType, 0.0);
    }
    forall n | 0 <= n < 144
      ensures out[n] == 0.0
    {
      EchoRecurrence(s, 48000.0, p, lfo, inLeft, inRight, 144, n);
    }
    assert out[144] == 1.0 by {
      EchoRecurrence(s, 48000.0, p, lfo, inLeft, inRight, 144, 144);
    }
    assert out[145] == 0.0 by {
      EchoRecurrence(s, 48000.0, p, lfo, inLeft, inRight, 144, 145);
    }
    assert out[289] == 0.5 by {
      EchoRecurrence(s, 48000.0, p, lfo, inLeft, inRight, 144, 289);
    }
    assert out[434] == 0.25 by {
      EchoRecurrence(s, 48000.0, p, lfo, inLeft, inRight, 144, 434);
    }
  }
}

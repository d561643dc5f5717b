/**
 * The audio processor object of the flanger: the parameter fields the editor
 * sets, the LFO and oscillator phases, the delay line with its cursors, and
 * the per-block processing that works in place on the host's buffer.
 *
 * Every method is proved against the value model in FlangerSpec: one pass
 * of the sample loop is `Next`/`Out` on the voice the fields hold, and a
 * whole block is `Advance`/`Outs` on channel 0. Phases are kept in turns
 * (radians divided by 2*pi); `wave` is the LFO's waveform over one turn.
 */
module Processor {
  import opened Limiter
  import opened DelayLine
  import opened FlangerSpec

  /** Channel `c` of an audio buffer laid out as channels by samples. */
  ghost function Row(buffer: array2<real>, c: int): seq<real>
    reads buffer
    requires 0 <= c < buffer.Length0
  {
    seq(buffer.Length1, j requires 0 <= j < buffer.Length1 reads buffer => buffer[c, j])
  }

  /** `std::vector::resize`: keep the first `n` samples, pad with zeros. */
  function Resized(s: seq<real>, n: nat): (r: seq<real>)
    ensures |r| == n
    ensures forall i :: 0 <= i < n && i < |s| ==> r[i] == s[i]
    ensures forall i :: |s| <= i < n ==> r[i] == 0.0
  {
    if |s| >= n then s[..n] else s + seq(n - |s|, _ => 0.0)
  }

  /** Set every sample of channel `c` to zero, leaving the other channels alone. */
  method ClearChannel(buffer: array2<real>, c: int)
    requires 0 <= c < buffer.Length0
    modifies buffer
    ensures forall j :: 0 <= j < buffer.Length1 ==> buffer[c, j] == 0.0
    ensures forall d, j :: 0 <= d < buffer.Length0 && d != c && 0 <= j < buffer.Length1 ==>
      buffer[d, j] == old(buffer[d, j])
  {
    var j := 0;
    while j < buffer.Length1
      invariant 0 <= j <= buffer.Length1
      invariant forall j' :: 0 <= j' < j ==> buffer[c, j'] == 0.0
      invariant forall d, j' :: 0 <= d < buffer.Length0 && d != c && 0 <= j' < buffer.Length1 ==>
        buffer[d, j'] == old(buffer[d, j'])
    {
      buffer[c, j] := 0.0;
      j := j + 1;
    }
  }

  /**
   * Zero the output channels from `numIn` up to `numOut`, which carry no
   * input; the other channels are left alone.
   */
  method ClearExtraOutputs(buffer: array2<real>, numIn: int, numOut: int)
    requires 0 <= numIn && numOut <= buffer.Length0
    modifies buffer
    ensures forall c, j :: numIn <= c < numOut && 0 <= j < buffer.Length1 ==> buffer[c, j] == 0.0
    ensures forall c, j :: 0 <= c < buffer.Length0 && !(numIn <= c < numOut) && 0 <= j < buffer.Length1 ==>
      buffer[c, j] == old(buffer[c, j])
  {
    var c := numIn;
    while c < numOut
      invariant c == numIn || numIn < c <= numOut
      invariant forall d, j :: numIn <= d < c && 0 <= j < buffer.Length1 ==> buffer[d, j] == 0.0
      invariant forall d, j :: 0 <= d < buffer.Length0 && !(numIn <= d < c) && 0 <= j < buffer.Length1 ==>
        buffer[d, j] == old(buffer[d, j])
    {
      ClearChannel(buffer, c);
      c := c + 1;
    }
  }

  /** Copy channel `c - 1` into channel `c`, leaving the other channels alone. */
  method CopyPrevious(buffer: array2<real>, c: int)
    requires 1 <= c < buffer.Length0
    modifies buffer
    ensures forall j :: 0 <= j < buffer.Length1 ==> buffer[c, j] == buffer[c - 1, j]
    ensures forall d, j :: 0 <= d < buffer.Length0 && d != c && 0 <= j < buffer.Length1 ==>
      buffer[d, j] == old(buffer[d, j])
  {
    var j := 0;
    while j < buffer.Length1
      invariant 0 <= j <= buffer.Length1
      invariant forall j' :: 0 <= j' < j ==> buffer[c, j'] == buffer[c - 1, j']
      invariant forall d, j' :: 0 <= d < buffer.Length0 && d != c && 0 <= j' < buffer.Length1 ==>
        buffer[d, j'] == old(buffer[d, j'])
    {
      buffer[c, j] := buffer[c - 1, j];
      j := j + 1;
    }
  }

  class FlangerProcessor {
    /** The sample rate; unset until PrepareToPlay. */
    var fs: real
    var gain: real
    /** The test oscillator's frequency; it drives only `curPhase`. */
    var freq: real
    var curPhase: real
    var delayLine: seq<real>
    /** The delay line's length in samples; the source never changes it. */
    const maxDelay: int := 1000
    var curPhaseLFO: real
    var freqLFO: real
    /** LFO depth, meant to lie in `[0, 1]` (the editor's slider range). */
    var depthLFO: real
    var writeLoc: int
    var readLoc: int

    /** The write cursor points into a line of `maxDelay` slots. */
    predicate Valid()
      reads this
    {
      0 <= writeLoc < maxDelay
    }

    /** Ready to process: the line has been sized and the sample rate is known. */
    predicate Prepared()
      reads this
    {
      Valid() && |delayLine| == maxDelay && fs != 0.0
    }

    /** The delay-line state the fields hold, as a value. */
    function VoiceOf(): (v: Voice)
      reads this
      requires Prepared()
      ensures DelayLine.Valid(v.ring) && |v.ring.line| == maxDelay
    {
      Voice(Ring(delayLine, writeLoc), readLoc, curPhase, curPhaseLFO)
    }

    /** The per-sample parameters the fields give at this sample rate. */
    function ParamsOf(): (p: Params)
      reads this
      requires fs != 0.0
      ensures p.incLFO == 0.0 <==> freqLFO == 0.0
      ensures p.inc == 0.0 <==> freq == 0.0
    {
      Params(gain, Increment(freq, fs), Increment(freqLFO, fs), depthLFO)
    }

    /** A fresh processor: the header's defaults and an empty delay line. */
    constructor ()
      ensures gain == 0.5 && freq == 440.0 && curPhase == 0.0
      ensures curPhaseLFO == 0.0 && freqLFO == 2.0 && depthLFO == 0.5
      ensures writeLoc == 0 && readLoc == 1
      ensures delayLine == []
      ensures Valid() && !Prepared()
    {
      gain := 0.5;
      freq := 440.0;
      curPhase := 0.0;
      delayLine := [];
      curPhaseLFO := 0.0;
      freqLFO := 2.0;
      depthLFO := 0.5;
      writeLoc := 0;
      readLoc := 1;
    }

    method SetGain(gainToSet: real)
      modifies this`gain
      ensures gain == gainToSet
    {
      gain := gainToSet;
    }

    method SetFrequency(freqToSet: real)
      modifies this`freq
      ensures freq == freqToSet
    {
      freq := freqToSet;
    }

    method SetLFOfreq(lfoFreqToSet: real)
      modifies this`freqLFO
      ensures freqLFO == lfoFreqToSet
    {
      freqLFO := lfoFreqToSet;
    }

    method SetLFOdepth(lfoDepth: real)
      modifies this`depthLFO
      ensures depthLFO == lfoDepth
    {
      depthLFO := lfoDepth;
    }

    /**
     * Take the host's sample rate and size the delay line to `maxDelay`,
     * keeping what it held. Phases and cursors are not reset.
     */
    method PrepareToPlay(sampleRate: real, samplesPerBlock: int)
      modifies this`fs, this`delayLine
      ensures fs == sampleRate
      ensures delayLine == Resized(old(delayLine), maxDelay)
      ensures Valid() == old(Valid())
      ensures sampleRate != 0.0 && Valid() ==> Prepared()
    {
      fs := sampleRate;
      delayLine := Resized(delayLine, maxDelay);
    }

    /**
     * One pass of the channel-0 sample loop: write the gained input at the
     * cursor, advance the LFO, read the interpolated delayed sample behind
     * the cursor, limit the sum, and advance the cursor.
     */
    method ProcessSample(x: real, wave: real -> real) returns (y: real)
      requires Prepared()
      modifies this`curPhase, this`curPhaseLFO, this`writeLoc, this`readLoc, this`delayLine
      ensures Prepared()
      ensures VoiceOf() == Next(old(VoiceOf()), ParamsOf(), wave, x)
      ensures y == Out(old(VoiceOf()), ParamsOf(), wave, x)
      ensures delayLine == old(delayLine)[old(writeLoc) := Scaled(gain, x)]
      ensures -1.0 <= y <= 1.0
    {
      ghost var v, p := VoiceOf(), ParamsOf();
      curPhase := curPhase + Increment(freq, fs);
      var inputSignal := Scaled(gain, x);
      delayLine := delayLine[writeLoc := inputSignal];
      ghost var written := Write(v.ring, inputSignal);
      curPhaseLFO := curPhaseLFO + Increment(freqLFO, fs);
      var delay := DelayLength(depthLFO, maxDelay, wave(curPhaseLFO));
      assert delay == Delay(v, p, wave);
      var frac := delay - delay.Floor as real;
      FloorPlusOne(delay);
      readLoc := Tap(writeLoc, delay.Floor, maxDelay);
      var readLoc2 := Tap(writeLoc, (delay + 1.0).Floor, maxDelay);
      var nonLimitedOutput := inputSignal + Lerp(delayLine[readLoc], delayLine[readLoc2], frac);
      assert nonLimitedOutput == inputSignal + Interpolate(written.line, v.ring.writeLoc, delay);
      y := Limit(nonLimitedOutput, -1.0, 1.0);
      writeLoc := CppArith.Rem(writeLoc + 1, maxDelay);
      assert VoiceOf() == Voice(written, readLoc, curPhase, curPhaseLFO);
    }

    /**
     * Sample `i` of channel 0, processed in place, as step `i` of the pass
     * `vs`, `ys` over the block `xs`: the voice moves from `vs[i]` to
     * `vs[i + 1]` and the output `ys[i]` replaces the input `xs[i]`.
     */
    method ProcessAt(buffer: array2<real>, i: int, wave: real -> real,
                     ghost p: Params, ghost xs: seq<real>, ghost vs: seq<Voice>, ghost ys: seq<real>)
      requires Prepared() && ParamsOf() == p && IsRun(p, wave, xs, vs, ys)
      requires 0 < buffer.Length0 && 0 <= i < buffer.Length1 == |xs| && VoiceOf() == vs[i] && buffer[0, i] == xs[i]
      modifies this`curPhase, this`curPhaseLFO, this`writeLoc, this`readLoc, this`delayLine, buffer
      ensures Prepared() && ParamsOf() == p
      ensures VoiceOf() == vs[i + 1] && buffer[0, i] == ys[i]
      ensures forall d, j :: 0 <= d < buffer.Length0 && 0 <= j < buffer.Length1 && (d != 0 || j != i) ==>
        buffer[d, j] == old(buffer[d, j])
    {
      var y := ProcessSample(buffer[0, i], wave);
      buffer[0, i] := y;
    }

    /**
     * The flanger loop over channel 0: each sample is replaced, in place, by
     * the processed one, and the voice advances over the whole block.
     */
    method ProcessChannelZero(buffer: array2<real>, wave: real -> real)
      requires Prepared() && buffer.Length0 > 0
      modifies this`curPhase, this`curPhaseLFO, this`writeLoc, this`readLoc, this`delayLine, buffer
      ensures Prepared()
      ensures Row(buffer, 0) == Outs(old(VoiceOf()), ParamsOf(), wave, old(Row(buffer, 0)))
      ensures VoiceOf() == Advance(old(VoiceOf()), ParamsOf(), wave, old(Row(buffer, 0)))
      ensures forall j :: 0 <= j < buffer.Length1 ==> -1.0 <= buffer[0, j] <= 1.0
      ensures forall d, j :: 1 <= d < buffer.Length0 && 0 <= j < buffer.Length1 ==>
        buffer[d, j] == old(buffer[d, j])
    {
      ghost var v0, p, xs := VoiceOf(), ParamsOf(), Row(buffer, 0);
      ghost var vs, ys := RunOf(v0, p, wave, xs);
      var i := 0;
      while i < buffer.Length1
        invariant 0 <= i <= buffer.Length1
        invariant Prepared() && ParamsOf() == p && VoiceOf() == vs[i]
        invariant forall j :: 0 <= j < i ==> buffer[0, j] == ys[j]
        invariant forall j :: i <= j < buffer.Length1 ==> buffer[0, j] == xs[j]
        invariant forall d, j :: 1 <= d < buffer.Length0 && 0 <= j < buffer.Length1 ==>
          buffer[d, j] == old(buffer[d, j])
      {
        ProcessAt(buffer, i, wave, p, xs, vs, ys);
        i := i + 1;
      }
      RunDetermined(v0, p, wave, xs, vs, ys);
      assert Row(buffer, 0) == ys;
      OutsWithin(v0, p, wave, xs);
    }

    /**
     * One audio block: clear the output channels that have no input, run the
     * flanger on channel 0 and copy each further input channel from the one
     * before it, so that every input channel ends up carrying channel 0.
     */
    method ProcessBlock(buffer: array2<real>, numIn: int, numOut: int, wave: real -> real)
      requires Prepared()
      requires 0 <= numIn <= buffer.Length0 && numOut <= buffer.Length0
      modifies this`curPhase, this`curPhaseLFO, this`writeLoc, this`readLoc, this`delayLine, buffer
      ensures Prepared()
      ensures numIn > 0 ==> Row(buffer, 0) == Outs(old(VoiceOf()), ParamsOf(), wave, old(Row(buffer, 0)))
      ensures numIn > 0 ==> VoiceOf() == Advance(old(VoiceOf()), ParamsOf(), wave, old(Row(buffer, 0)))
      ensures numIn == 0 ==> VoiceOf() == old(VoiceOf())
      ensures numIn > 0 ==> forall j :: 0 <= j < buffer.Length1 ==> -1.0 <= buffer[0, j] <= 1.0
      ensures forall c, j :: 1 <= c < numIn && 0 <= j < buffer.Length1 ==> buffer[c, j] == buffer[c - 1, j]
      ensures forall c, j :: 1 <= c < numIn && 0 <= j < buffer.Length1 ==> buffer[c, j] == buffer[0, j]
      ensures forall c, j :: numIn <= c < numOut && 0 <= j < buffer.Length1 ==> buffer[c, j] == 0.0
      ensures forall c, j :: numIn <= c < buffer.Length0 && numOut <= c && 0 <= j < buffer.Length1 ==>
        buffer[c, j] == old(buffer[c, j])
    {
      ghost var v0, p := VoiceOf(), ParamsOf();
      ghost var xs := if numIn > 0 then Row(buffer, 0) else [];
      ghost var ys := Outs(v0, p, wave, xs);
      ClearExtraOutputs(buffer, numIn, numOut);
      if numIn > 0 {
        assert Row(buffer, 0) == xs;
      }
      label Cleared:
      var channel := 0;
      while channel < numIn
        invariant 0 <= channel <= numIn
        invariant Prepared() && ParamsOf() == p
        invariant channel == 0 ==> VoiceOf() == v0
        invariant channel > 0 ==> VoiceOf() == Advance(v0, p, wave, xs)
        invariant channel > 0 ==> forall j :: 0 <= j < buffer.Length1 ==> buffer[0, j] == ys[j]
        invariant channel > 0 ==> forall j :: 0 <= j < buffer.Length1 ==> -1.0 <= buffer[0, j] <= 1.0
        invariant forall d, j :: 1 <= d < channel && 0 <= j < buffer.Length1 ==> buffer[d, j] == buffer[0, j]
        invariant forall d, j :: channel <= d < buffer.Length0 && 0 <= j < buffer.Length1 ==>
          buffer[d, j] == old@Cleared(buffer[d, j])
      {
        if channel == 0 {
          assert Row(buffer, 0) == xs;
          ProcessChannelZero(buffer, wave);
          assert Row(buffer, 0) == ys;
        } else {
          CopyPrevious(buffer, channel);
        }
        channel := channel + 1;
      }
      if numIn > 0 {
        assert Row(buffer, 0) == ys;
      }
      forall c, j | 1 <= c < numIn && 0 <= j < buffer.Length1
        ensures buffer[c, j] == buffer[c - 1, j]
      {
        if c > 1 {
          assert buffer[c - 1, j] == buffer[0, j];
        }
      }
    }
  }
}

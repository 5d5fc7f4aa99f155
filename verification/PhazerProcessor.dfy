/** The PhazerAudioProcessor class of Source/PluginProcessor.h and Source/PluginProcessor.cpp:
    the block processor that clears unused output channels, runs the phaser over the buffer in
    place and keeps a copy of the result. Every method is proved to perform the transition of
    the same name in PhaserSpec on the object's fields and on the buffer's channels, so the
    properties proved there hold of the object. */
module PhazerProcessor {
  import opened CMath
  import opened Juce
  import OscillatorSpec
  import opened OscillatorBank
  import opened PhaserSpec

  /** Channel c of an audio buffer laid out channel by sample. */
  function Row(b: array2<real>, c: nat): (r: seq<real>)
    requires c < b.Length0
    reads b
    ensures |r| == b.Length1 && forall j :: 0 <= j < b.Length1 ==> r[j] == b[c, j]
  {
    seq(b.Length1, j requires 0 <= j < b.Length1 reads b => b[c, j])
  }

  /** All channels of an audio buffer. */
  function Rows(b: array2<real>): (r: seq<seq<real>>)
    reads b
    ensures |r| == b.Length0 && forall c :: 0 <= c < b.Length0 ==> r[c] == Row(b, c)
  {
    seq(b.Length0, c requires 0 <= c < b.Length0 reads b => Row(b, c))
  }

  class PhazerAudioProcessor {
    /** The framework functions the processor calls. */
    const lib: Library

    /** The values behind rateParam, depthParam, widthParam, centerfreqParam, mixParam,
        stageParam and powerParam, as the host last set them. */
    var rateParam: real
    var depthParam: real
    var widthParam: real
    var centerfreqParam: real
    var mixParam: real
    var stageParam: int
    var powerParam: bool

    /** What getSampleRate, getTotalNumInputChannels and getTotalNumOutputChannels report. */
    var hostSampleRate: real
    var totalNumInputChannels: int
    var totalNumOutputChannels: int

    const oscillator: Oscillators
    var crossFadeFlag: bool
    var filterAP1L: IIRFilter
    var filterAP1R: IIRFilter
    const ICs: array<real>
    var resetICflag: bool
    var crossFadeBuffer: seq<seq<real>>
    var effectOn: bool
    const osc: array<real>

    /** The scalar members of the class, grouped as PhaserSpec groups them: the smoothers
        SMdepth to SMnumstages; the per-sample controls rate, depth, width, mix, centerfreq, BW
        and numStages; the section a0 to b2 with Re and z2; the block timing nums, chans,
        sampRate, sampTime and Omega; and leftin, rightin, leftout and rightout. */
    var sm: Smoothers
    var ctl: Controls
    var sec: Section
    var timing: Timing
    var taps: Taps

    /** The fields mainEffectLoop works on, as a value. */
    ghost function Engine(): PhaserSpec.Engine
      reads this, oscillator, osc
    {
      PhaserSpec.Engine(oscillator.State(), osc[..], sm, ctl, sec, filterAP1L, filterAP1R, timing, taps, resetICflag)
    }

    /** The fields process works on, as a value. */
    ghost function Snapshot(): Processor
      reads this, oscillator, osc
    {
      Processor(Engine(), effectOn, crossFadeFlag, crossFadeBuffer)
    }

    /** What the host and the editor have provided. */
    ghost function HostView(): Host
      reads this`rateParam, this`depthParam, this`widthParam, this`centerfreqParam, this`mixParam,
             this`stageParam, this`powerParam, this`hostSampleRate, this`totalNumInputChannels,
             this`totalNumOutputChannels, ICs
    {
      Host(rateParam, depthParam, widthParam, centerfreqParam, mixParam, stageParam, powerParam,
           hostSampleRate, totalNumInputChannels, totalNumOutputChannels, ICs[..])
    }

    /** The object invariant: three output slots and three initial conditions in two separate
        arrays, a library that behaves like JUCE's, and an engine fit to start a block. */
    ghost predicate Valid()
      reads this, oscillator, osc, ICs
    {
      osc.Length == 3 && ICs.Length == 3 && osc != ICs && Glides(lib) && Idle(Engine())
    }

    /** The constructor: the parameters take their declared defaults, the smoothers, filters
        and initial conditions start at zero, and the oscillator is switched to Sine. Members
        the source leaves uninitialized start at zero here. */
    constructor(lib: Library)
      requires Glides(lib)
      ensures Valid() && fresh(oscillator) && fresh(osc) && fresh(ICs)
      ensures this.lib == lib
      ensures rateParam == 0.5 && depthParam == 0.8 && widthParam == 0.5 && centerfreqParam == 999.977
      ensures mixParam == 0.0 && stageParam == 4 && powerParam
      ensures ICs[..] == [0.0, 0.0, 0.0] && !resetICflag && !crossFadeFlag && effectOn
      ensures oscillator.State() == OscillatorSpec.SetType(OscillatorSpec.Initial(oscillator.delta, oscillator.delta2), OscillatorSpec.Sine)
    {
      this.lib := lib;
      rateParam, depthParam, widthParam, centerfreqParam := 0.5, 0.8, 0.5, 999.977;
      mixParam, stageParam, powerParam := 0.0, 4, true;
      hostSampleRate, totalNumInputChannels, totalNumOutputChannels := 0.0, 0, 0;
      var o := new Oscillators();
      oscillator := o;
      crossFadeFlag := false;
      var zero := IIRFilter(IIRCoefficients(0.0, 0.0, 0.0, 0.0, 0.0, 0.0), FilterMemory(0.0, 0.0));
      filterAP1L, filterAP1R := zero, zero;
      ICs := new real[3](_ => 0.0);
      resetICflag := false;
      crossFadeBuffer := [];
      effectOn := true;
      osc := new real[3](_ => 0.0);
      var still := LinearSmoothedValue(0.0, 0.0);
      sm := Smoothers(still, still, still, still, still, still);
      ctl := Controls(0.0, 0.0, 0.0, 0.0, 0.0, 0.0, 0);
      sec := Section(0.0, 0.0, 0.0, 0.0, 0.0, 0.0, 0.0, 0.0);
      timing := Timing(0, 0, 0.0, 0.0, 0.0);
      taps := Taps(0.0, 0.0, 0.0, 0.0);
      new;
      oscillator.SetType(OscillatorSpec.Sine);
    }

    /** process: clears the output-only channels, runs mainEffectLoop when the power parameter
        is on, takes the crossfade step and copies the buffer into the crossfade buffer. */
    method Process(buffer: array2<real>)
      requires Valid() && HostOk(HostView())
      requires totalNumInputChannels < totalNumOutputChannels ==> totalNumOutputChannels <= buffer.Length0
      modifies this`effectOn, this`crossFadeFlag, this`crossFadeBuffer, this`timing, this`sm,
               this`resetICflag, this`taps, this`ctl, this`sec, this`filterAP1L, this`filterAP1R,
               oscillator, osc, buffer
      ensures Valid()
      ensures var r := PhaserSpec.Process(lib, old(Snapshot()), old(HostView()), old(Rows(buffer)), buffer.Length1);
              Snapshot() == r.0 && Rows(buffer) == r.1
    {
      ghost var p0, h, buf := Snapshot(), HostView(), Rows(buffer);
      ClearOutputOnly(buffer);
      effectOn := powerParam;
      if effectOn {
        MainEffectLoop(buffer);
      }
      if crossFadeFlag {
        // The channel loop of the crossfade starts at 0 and runs while chan > getNumChannels(),
        // which is false at once, so its body never runs.
        var chan := 0;
        assert !(chan > buffer.Length0);
        crossFadeFlag := false;
      }
      crossFadeBuffer := Rows(buffer);
      ProcessParts(lib, p0, h, buf, buffer.Length1, Engine(), Rows(buffer));
    }

    /** The clearing loop at the head of process. */
    method ClearOutputOnly(buffer: array2<real>)
      requires totalNumInputChannels >= 0
      requires totalNumInputChannels < totalNumOutputChannels ==> totalNumOutputChannels <= buffer.Length0
      modifies buffer
      ensures Rows(buffer) == ClearChannels(old(Rows(buffer)), totalNumInputChannels, totalNumOutputChannels)
    {
      ghost var before := Rows(buffer);
      var numSamples := buffer.Length1;
      var i := totalNumInputChannels;
      while i < totalNumOutputChannels
        invariant totalNumInputChannels <= i
        invariant i <= totalNumOutputChannels || i == totalNumInputChannels
        invariant i < totalNumOutputChannels ==> i <= buffer.Length0
        invariant forall c, j :: 0 <= c < buffer.Length0 && 0 <= j < numSamples ==>
                    buffer[c, j] == if totalNumInputChannels <= c < i then 0.0 else before[c][j]
      {
        var k := 0;
        while k < numSamples
          invariant 0 <= k <= numSamples
          invariant forall c, j :: 0 <= c < buffer.Length0 && 0 <= j < numSamples ==>
                      buffer[c, j] == if totalNumInputChannels <= c < i || (c == i && j < k) then 0.0 else before[c][j]
        {
          buffer[i, k] := 0.0;
          k := k + 1;
        }
        i := i + 1;
      }
      ghost var cleared := ClearChannels(before, totalNumInputChannels, totalNumOutputChannels);
      forall c | 0 <= c < buffer.Length0
        ensures Rows(buffer)[c] == cleared[c]
      {
        assert forall j :: 0 <= j < numSamples ==> buffer[c, j] == cleared[c][j];
        RowMatches(buffer, c, cleared[c]);
      }
    }

    /** mainEffectLoop: the block set-up, then the stereo loop for two channels or the mono
        loop for one. */
    method MainEffectLoop(buffer: array2<real>)
      requires Valid() && HostOk(HostView())
      modifies this`timing, this`sm, this`resetICflag, this`taps, this`ctl, this`sec,
               this`filterAP1L, this`filterAP1R, oscillator, osc, buffer
      ensures Valid()
      ensures var m := MainEffect(lib, old(Engine()), old(HostView()), old(Rows(buffer)), buffer.Length1);
              Engine() == m.0 && Rows(buffer) == m.1
    {
      BeginBlock(buffer);
      RunChannels(buffer);
    }

    /** The two sample loops of mainEffectLoop, chosen by the channel count. */
    method RunChannels(buffer: array2<real>)
      requires Running() && timing.chans == buffer.Length0 && timing.nums == buffer.Length1
      modifies this`taps, this`sm, this`ctl, this`sec, this`filterAP1L, this`filterAP1R, oscillator, osc, buffer
      ensures Running()
      ensures var r := Channels(lib, old(Engine()), old(Rows(buffer)));
              Engine() == r.0 && Rows(buffer) == r.1
    {
      ghost var s, buf := Engine(), Rows(buffer);
      if timing.chans == 2 {
        StereoLoopInPlace(buffer);
        ghost var p := StereoLoop(lib, s, buf[0], buf[1]);
        RowsAfterStereo(buffer, buf, p.1, p.2);
      }
      if timing.chans == 1 {
        MonoLoopInPlace(buffer);
        ghost var p := MonoLoop(lib, s, buf[0]);
        RowsAfterMono(buffer, buf, p.1);
      }
    }

    /** The part of mainEffectLoop before the sample loops. */
    method BeginBlock(buffer: array2<real>)
      requires Valid() && HostOk(HostView())
      modifies this`timing, this`sm, this`resetICflag, oscillator
      ensures Engine() == BlockStart(lib, old(Engine()), HostView(), buffer.Length1, buffer.Length0)
    {
      SetValueNonNegative(lib, sm.rate, rateParam);
      timing := BlockTiming(buffer.Length1, buffer.Length0, hostSampleRate);
      sm := sm.(rate := SetValue(lib, sm.rate, rateParam), depth := SetValue(lib, sm.depth, depthParam),
                 width := SetValue(lib, sm.width, widthParam), mix := SetValue(lib, sm.mix, mixParam),
                 centerfreq := SetValue(lib, sm.centerfreq, centerfreqParam),
                 numstages := SetValue(lib, sm.numstages, stageParam as real));
      if resetICflag {
        oscillator.ResetICs(ICs);
        resetICflag := false;
      }
    }

    /** What a sample loop needs of the object: a library that behaves like JUCE's, an engine
        fit to run, and an output array of three slots apart from the initial conditions. */
    ghost predicate Running()
      reads this, oscillator, osc
    {
      Glides(lib) && Ready(Engine()) && osc.Length == 3 && osc != ICs
    }

    /** The stereo loop's invariant at sample `samp`, for inputs L and R whose whole loop yields
        `final`: the samples before `samp` hold their outputs, the rest their inputs, and the
        loop over the remaining samples from the current engine ends in `final`. */
    ghost predicate StereoDone(buffer: array2<real>, L: seq<real>, R: seq<real>, samp: int,
                               final: (Engine, seq<real>, seq<real>))
      reads this, oscillator, osc, buffer
    {
      && Running() && buffer.Length0 == 2
      && Written(buffer, 0, samp, final.1, L) && Written(buffer, 1, samp, final.2, R)
      && var rest := StereoLoop(lib, Engine(), L[samp..], R[samp..]);
         rest.0 == final.0 && rest.1 == final.1[samp..] && rest.2 == final.2[samp..]
    }

    /** The same for the mono loop on channel 0. */
    ghost predicate MonoDone(buffer: array2<real>, X: seq<real>, samp: int, final: (Engine, seq<real>))
      reads this, oscillator, osc, buffer
    {
      && Running() && buffer.Length0 == 1 && Written(buffer, 0, samp, final.1, X)
      && var rest := MonoLoop(lib, Engine(), X[samp..]);
         rest.0 == final.0 && rest.1 == final.1[samp..]
    }

    /** The stereo loop, channel 0 left and channel 1 right. */
    method StereoLoopInPlace(buffer: array2<real>)
      requires Running() && buffer.Length0 == 2 && timing.nums == buffer.Length1
      modifies this`taps, this`sm, this`ctl, this`sec, this`filterAP1L, this`filterAP1R, oscillator, osc, buffer
      ensures Running()
      ensures var p := StereoLoop(lib, old(Engine()), old(Row(buffer, 0)), old(Row(buffer, 1)));
              Engine() == p.0 && Row(buffer, 0) == p.1 && Row(buffer, 1) == p.2
    {
      ghost var L, R := Row(buffer, 0), Row(buffer, 1);
      ghost var final := StereoLoop(lib, Engine(), L, R);
      assert L[0..] == L && R[0..] == R;
      var samp := 0;
      while samp < timing.nums
        invariant timing.nums == buffer.Length1
        invariant StereoDone(buffer, L, R, samp, final)
      {
        StereoIteration(buffer, samp, L, R, final);
        samp := samp + 1;
      }
      RowMatches(buffer, 0, final.1);
      RowMatches(buffer, 1, final.2);
    }

    /** One pass of the stereo loop: the sample pair at `samp` is read, processed and written
        back. */
    method StereoIteration(buffer: array2<real>, samp: int, ghost L: seq<real>, ghost R: seq<real>,
                           ghost final: (Engine, seq<real>, seq<real>))
      requires StereoDone(buffer, L, R, samp, final) && samp < buffer.Length1
      modifies this`taps, this`sm, this`ctl, this`sec, this`filterAP1L, this`filterAP1R, oscillator, osc, buffer
      ensures StereoDone(buffer, L, R, samp + 1, final)
    {
      StereoLoopStep(lib, Engine(), L, R, samp, final);
      var lo, ro := StereoSampleStep(buffer[0, samp], buffer[1, samp]);
      StoreStereo(buffer, samp, lo, ro, L, R, final.1, final.2);
    }

    /** The mono loop on channel 0. */
    method MonoLoopInPlace(buffer: array2<real>)
      requires Running() && buffer.Length0 == 1 && timing.nums == buffer.Length1
      modifies this`taps, this`sm, this`ctl, this`sec, this`filterAP1L, this`filterAP1R, oscillator, osc, buffer
      ensures Running()
      ensures var p := MonoLoop(lib, old(Engine()), old(Row(buffer, 0)));
              Engine() == p.0 && Row(buffer, 0) == p.1
    {
      ghost var X := Row(buffer, 0);
      ghost var final := MonoLoop(lib, Engine(), X);
      assert X[0..] == X;
      var samp := 0;
      while samp < timing.nums
        invariant timing.nums == buffer.Length1
        invariant MonoDone(buffer, X, samp, final)
      {
        MonoIteration(buffer, samp, X, final);
        samp := samp + 1;
      }
      RowMatches(buffer, 0, final.1);
    }

    /** One pass of the mono loop: the sample at `samp` is read, processed and written back. */
    method MonoIteration(buffer: array2<real>, samp: int, ghost X: seq<real>, ghost final: (Engine, seq<real>))
      requires MonoDone(buffer, X, samp, final) && samp < buffer.Length1
      modifies this`taps, this`sm, this`ctl, this`sec, this`filterAP1L, this`filterAP1R, oscillator, osc, buffer
      ensures MonoDone(buffer, X, samp + 1, final)
    {
      MonoLoopStep(lib, Engine(), X, samp, final);
      var y := MonoSampleStep(buffer[0, samp]);
      StoreMono(buffer, samp, y, X, final.1);
    }

    /** Writes an output pair back into channels 0 and 1 at `samp`. */
    method StoreStereo(buffer: array2<real>, samp: int, lo: real, ro: real,
                       ghost L: seq<real>, ghost R: seq<real>, ghost outL: seq<real>, ghost outR: seq<real>)
      requires buffer.Length0 == 2 && Written(buffer, 0, samp, outL, L) && Written(buffer, 1, samp, outR, R)
      requires samp < buffer.Length1 && lo == outL[samp] && ro == outR[samp]
      modifies buffer
      ensures Written(buffer, 0, samp + 1, outL, L) && Written(buffer, 1, samp + 1, outR, R)
    {
      buffer[0, samp] := lo;
      buffer[1, samp] := ro;
    }

    /** Writes an output sample back into channel 0 at `samp`. */
    method StoreMono(buffer: array2<real>, samp: int, y: real, ghost X: seq<real>, ghost out: seq<real>)
      requires buffer.Length0 == 1 && Written(buffer, 0, samp, out, X) && samp < buffer.Length1 && y == out[samp]
      modifies buffer
      ensures Written(buffer, 0, samp + 1, out, X)
    {
      buffer[0, samp] := y;
    }

    /** The body of the stereo loop for one pair of samples. */
    method StereoSampleStep(l: real, r: real) returns (lo: real, ro: real)
      requires Glides(lib) && Ready(Engine()) && osc.Length == 3 && osc != ICs
      modifies this`taps, this`sm, this`ctl, this`sec, this`filterAP1L, this`filterAP1R, oscillator, osc
      ensures var res := StereoSample(lib, old(Engine()), l, r);
              Engine() == res.0 && lo == res.1 && ro == res.2
    {
      ghost var e0 := Engine();
      Load(l, r);
      UpdateControls();
      lo, ro := FilterStereoInPlace();
      StereoSampleParts(lib, e0, l, r);
    }

    /** The body of the mono loop for one sample; its `leftout` is a local of the loop body. */
    method MonoSampleStep(x: real) returns (y: real)
      requires Glides(lib) && Ready(Engine()) && osc.Length == 3 && osc != ICs
      modifies this`taps, this`sm, this`ctl, this`sec, this`filterAP1L, this`filterAP1R, oscillator, osc
      ensures var res := MonoSample(lib, old(Engine()), x);
              Engine() == res.0 && y == res.1
    {
      ghost var e0 := Engine();
      Load(x, taps.rightin);
      UpdateControls();
      y := FilterMonoInPlace();
      MonoSampleParts(lib, e0, x);
    }

    /** Stores the input samples in leftin and rightin. */
    method Load(l: real, r: real)
      modifies this`taps
      ensures Engine() == old(Engine()).(taps := old(Engine()).taps.(leftin := l, rightin := r))
      ensures taps == old(taps).(leftin := l, rightin := r)
    {
      taps := taps.(leftin := l, rightin := r);
    }

    /** The filtering half of the stereo body and the two output samples. */
    method FilterStereoInPlace() returns (lo: real, ro: real)
      modifies this`taps, this`filterAP1L, this`filterAP1R
      ensures Engine() == FilterStereo(lib, old(Engine()))
      ensures lo == Blend(Engine().taps.leftin, Engine().taps.leftout, Engine().ctl.mix)
      ensures ro == Blend(Engine().taps.rightin, Engine().taps.rightout, Engine().ctl.mix)
    {
      taps := taps.(leftout := taps.leftin, rightout := taps.rightin);
      var c := Coefficients(sec);
      filterAP1L := SetCoefficients(filterAP1L, c);
      filterAP1R := SetCoefficients(filterAP1R, c);
      StereoStages();
      lo := taps.leftin + taps.leftout * ctl.mix;
      ro := taps.rightin + taps.rightout * ctl.mix;
    }

    /** The filtering half of the mono body and the output sample, computed from the body's
        local `leftout`. */
    method FilterMonoInPlace() returns (y: real)
      modifies this`filterAP1L
      ensures var f := FilterMono(lib, old(Engine()));
              Engine() == f.0 && y == Blend(Engine().taps.leftin, f.1, Engine().ctl.mix)
    {
      var leftout := taps.leftin;
      filterAP1L := SetCoefficients(filterAP1L, Coefficients(sec));
      leftout := MonoStages(leftout);
      y := taps.leftin + leftout * ctl.mix;
    }

    /** The stage loop of the stereo body: 4 * numStages passes of each channel's filter. */
    method StereoStages()
      modifies this`taps, this`filterAP1L, this`filterAP1R
      ensures taps.leftin == old(taps.leftin) && taps.rightin == old(taps.rightin)
      ensures (taps.leftout, filterAP1L) == Cascade(lib, old(filterAP1L), old(taps.leftout), 4 * ctl.numStages)
      ensures (taps.rightout, filterAP1R) == Cascade(lib, old(filterAP1R), old(taps.rightout), 4 * ctl.numStages)
    {
      var stage := 0;
      while stage < 4 * ctl.numStages
        invariant 0 <= stage && (stage <= 4 * ctl.numStages || stage == 0)
        invariant taps.leftin == old(taps.leftin) && taps.rightin == old(taps.rightin)
        invariant (taps.leftout, filterAP1L) == Cascade(lib, old(filterAP1L), old(taps.leftout), stage)
        invariant (taps.rightout, filterAP1R) == Cascade(lib, old(filterAP1R), old(taps.rightout), stage)
      {
        var left := ProcessSingleSampleRaw(lib, filterAP1L, taps.leftout);
        var right := ProcessSingleSampleRaw(lib, filterAP1R, taps.rightout);
        taps := taps.(leftout := left.0, rightout := right.0);
        filterAP1L, filterAP1R := left.1, right.1;
        stage := stage + 1;
      }
    }

    /** The stage loop of the mono body, on its local `leftout`. */
    method MonoStages(x: real) returns (y: real)
      modifies this`filterAP1L
      ensures (y, filterAP1L) == Cascade(lib, old(filterAP1L), x, 4 * ctl.numStages)
    {
      y := x;
      var stage := 0;
      while stage < 4 * ctl.numStages
        invariant 0 <= stage && (stage <= 4 * ctl.numStages || stage == 0)
        invariant (y, filterAP1L) == Cascade(lib, old(filterAP1L), x, stage)
      {
        var left := ProcessSingleSampleRaw(lib, filterAP1L, y);
        y, filterAP1L := left.0, left.1;
        stage := stage + 1;
      }
    }

    /** The control part of a loop iteration: smoothers, oscillator and coefficients. */
    method UpdateControls()
      requires Glides(lib) && Ready(Engine()) && osc.Length == 3 && osc != ICs
      modifies this`sm, this`ctl, this`sec, oscillator, osc
      ensures Engine() == Modulate(lib, old(Engine()))
    {
      SmoothParameters();
      AdvanceOscillator();
      RebuildCoefficients();
    }

    /** Each smoother steps once and its parameter takes the new value; numStages takes the
        truncated value of its smoother. */
    method SmoothParameters()
      requires Glides(lib) && Ready(Engine())
      modifies this`sm, this`ctl
      ensures Engine() == Smooth(lib, old(Engine()))
    {
      NextValuePositive(lib, sm.rate);
      sm := Advance(lib, sm);
      ctl := ctl.(rate := sm.rate.currentValue, depth := sm.depth.currentValue,
                  width := sm.width.currentValue, mix := sm.mix.currentValue,
                  centerfreq := sm.centerfreq.currentValue,
                  numStages := TruncateToInt(sm.numstages.currentValue));
    }

    /** setFrequency with the smoothed rate, then getNextSample into `osc` with input 0. */
    method AdvanceOscillator()
      requires Idle(Engine()) && ctl.rate > 0.0 && osc.Length == 3
      modifies oscillator, osc
      ensures Engine() == Tick(old(Engine()))
    {
      oscillator.SetFrequency(ctl.rate);
      oscillator.GetNextSample(osc, 0.0);
    }

    /** BW, Re, z2 and the six coefficients. */
    method RebuildCoefficients()
      requires osc.Length == 3
      modifies this`ctl, this`sec
      ensures Engine() == Rebuild(lib, old(Engine()))
    {
      ctl := ctl.(BW := Bandwidth(ctl.centerfreq, ctl.width));
      var Re := AllPassRe(lib, ctl.depth, timing.Omega, ctl.centerfreq, ctl.BW, osc[0]);
      var z2 := Squared(ctl.depth);
      sec := Section(1.0, Re, z2, z2, Re, 1.0, Re, z2);
    }
  }

  /** Channel c of the buffer holds `out` before sample `samp` and `input` from there on. */
  ghost predicate Written(b: array2<real>, c: int, samp: int, out: seq<real>, input: seq<real>)
    reads b
  {
    && 0 <= c < b.Length0 && |out| == |input| == b.Length1 && 0 <= samp <= b.Length1
    && (forall j :: 0 <= j < samp ==> b[c, j] == out[j])
    && (forall j :: samp <= j < b.Length1 ==> b[c, j] == input[j])
  }

  /** A two-channel buffer whose channels are l and r is `buf` with both channels replaced. */
  lemma RowsAfterStereo(b: array2<real>, buf: seq<seq<real>>, l: seq<real>, r: seq<real>)
    requires b.Length0 == |buf| == 2 && Row(b, 0) == l && Row(b, 1) == r
    ensures Rows(b) == buf[0 := l][1 := r]
  {
  }

  /** A one-channel buffer whose channel is x is `buf` with that channel replaced. */
  lemma RowsAfterMono(b: array2<real>, buf: seq<seq<real>>, x: seq<real>)
    requires b.Length0 == |buf| == 1 && Row(b, 0) == x
    ensures Rows(b) == buf[0 := x]
  {
  }

  /** A channel of the buffer equals a sequence that agrees with it sample by sample. */
  lemma RowMatches(b: array2<real>, c: nat, s: seq<real>)
    requires c < b.Length0 && |s| == b.Length1
    requires forall j :: 0 <= j < b.Length1 ==> b[c, j] == s[j]
    ensures Row(b, c) == s
  {
  }
}

/** PhazerAudioProcessor::process and mainEffectLoop (Source/PluginProcessor.cpp) as pure
    functions on a snapshot of the processor's fields and on the audio buffer, channel by
    channel. The class in PhazerProcessor.dfy runs the same loops in place and is proved
    against these functions; the lemmas below are the guarantees of the block processor. */
module PhaserSpec {
  import opened CMath
  import opened Juce
  import OscillatorSpec

  /** The six parameter smoothers SMdepth, SMrate, SMwidth, SMcenterfreq, SMmix, SMnumstages. */
  datatype Smoothers = Smoothers(
    depth: LinearSmoothedValue, rate: LinearSmoothedValue, width: LinearSmoothedValue,
    centerfreq: LinearSmoothedValue, mix: LinearSmoothedValue, numstages: LinearSmoothedValue)

  /** The per-sample control values: the smoothed parameters, the sweep width BW and the
      number of stages. */
  datatype Controls = Controls(rate: real, depth: real, width: real, mix: real, centerfreq: real, BW: real, numStages: int)

  /** The coefficient fields a0, a1, a2, b0, b1, b2 and the two intermediate values Re and z2. */
  datatype Section = Section(a0: real, a1: real, a2: real, b0: real, b1: real, b2: real, Re: real, z2: real)

  /** The block sizes and the timing derived from the host sample rate. */
  datatype Timing = Timing(nums: int, chans: int, sampRate: real, sampTime: real, Omega: real)

  /** The sample fields leftin, rightin, leftout, rightout. */
  datatype Taps = Taps(leftin: real, rightin: real, leftout: real, rightout: real)

  /** The processor fields mainEffectLoop reads or writes, with the oscillator's state and the
      contents of the three-slot `osc` array. */
  datatype Engine = Engine(
    osc: OscillatorSpec.OscState, oscOut: seq<real>,
    sm: Smoothers, ctl: Controls, sec: Section,
    filterAP1L: IIRFilter, filterAP1R: IIRFilter,
    timing: Timing, taps: Taps, resetICflag: bool)

  /** The processor as process sees it: the engine plus the power state, the crossfade flag and
      the crossfade buffer. */
  datatype Processor = Processor(engine: Engine, effectOn: bool, crossFadeFlag: bool, crossFadeBuffer: seq<seq<real>>)

  /** What the host and the editor provide at a block boundary: the parameter values, the
      host sample rate, the bus channel counts and the injected initial conditions. */
  datatype Host = Host(
    rate: real, depth: real, width: real, centerfreq: real, mix: real, stages: int, power: bool,
    sampleRate: real, numInputChannels: int, numOutputChannels: int, ics: seq<real>)

  /** Host values the processor relies on: a positive sample rate (it is divided by), a
      positive rate parameter (its range starts at 0.001; the oscillator divides by it), three
      initial conditions and channel counts that are not negative. */
  predicate HostOk(h: Host)
  {
    h.sampleRate > 0.0 && h.rate > 0.0 && |h.ics| >= 3
    && h.numInputChannels >= 0 && h.numOutputChannels >= 0
  }

  /** Between blocks: a consistent oscillator, three output slots, and a rate smoother that
      has never been below zero. */
  predicate Idle(e: Engine)
  {
    OscillatorSpec.Ok(e.osc) && |e.oscOut| == 3 && e.sm.rate.currentValue >= 0.0
  }

  /** Inside a block: additionally, the rate smoother is heading for a positive target, so every
      value it hands to setFrequency is positive. */
  predicate Ready(e: Engine)
  {
    Idle(e) && e.sm.rate.target > 0.0
  }

  /** The coefficient fields, in IIRCoefficients' argument order (b0, b1, b2, a0, a1, a2). */
  function Coefficients(s: Section): IIRCoefficients
  {
    IIRCoefficients(s.b0, s.b1, s.b2, s.a0, s.a1, s.a2)
  }

  /** x squared. */
  function Squared(x: real): real
  {
    x * x
  }

  /** The width of the sweep around the centre frequency. */
  function Bandwidth(centerfreq: real, width: real): real
  {
    centerfreq / 3.0 * width
  }

  /** The first-order coefficient of the all-pass section: -2 depth cos(Omega (centre + BW o)),
      where o is the oscillator's first output. */
  function AllPassRe(lib: Library, depth: real, Omega: real, centerfreq: real, BW: real, o: real): real
  {
    -2.0 * depth * lib.cos(Omega * (centerfreq + BW * o))
  }

  /** The second-order all-pass form: a0 = b2 = 1, a1 = b1 = Re and a2 = b0 = depth squared. */
  predicate AllPassForm(s: Section, depth: real)
  {
    && s.a0 == 1.0 && s.b2 == 1.0
    && s.a1 == s.Re && s.b1 == s.Re
    && s.a2 == s.z2 && s.b0 == s.z2 && s.z2 == Squared(depth)
  }

  // ---------------------------------------------------------------------------------------
  // One sample

  /** Every smoother steps once. */
  function Advance(lib: Library, sm: Smoothers): (r: Smoothers)
    requires Glides(lib)
    ensures r.rate == GetNextValue(lib, sm.rate) && r.depth == GetNextValue(lib, sm.depth)
    ensures r.width == GetNextValue(lib, sm.width) && r.mix == GetNextValue(lib, sm.mix)
    ensures r.centerfreq == GetNextValue(lib, sm.centerfreq) && r.numstages == GetNextValue(lib, sm.numstages)
  {
    Smoothers(GetNextValue(lib, sm.depth), GetNextValue(lib, sm.rate), GetNextValue(lib, sm.width),
              GetNextValue(lib, sm.centerfreq), GetNextValue(lib, sm.mix), GetNextValue(lib, sm.numstages))
  }

  /** The control values read off the smoothers: each parameter is its smoother's current value,
      the stage count is that value truncated to an int, and BW is centre / 3 * width. */
  predicate Tracks(c: Controls, sm: Smoothers)
  {
    && c.rate == sm.rate.currentValue && c.depth == sm.depth.currentValue
    && c.width == sm.width.currentValue && c.mix == sm.mix.currentValue
    && c.centerfreq == sm.centerfreq.currentValue
    && c.numStages == TruncateToInt(sm.numstages.currentValue)
    && c.BW == Bandwidth(c.centerfreq, c.width)
  }

  /** The first part of a loop iteration: every smoother steps once and each parameter takes
      its smoother's new value, the stage count truncated to an int. */
  function Smooth(lib: Library, e: Engine): (r: Engine)
    requires Glides(lib) && Ready(e)
    ensures Ready(r) && r.ctl.rate > 0.0
    ensures r.sm == Advance(lib, e.sm) && Tracks(r.ctl.(BW := Bandwidth(r.ctl.centerfreq, r.ctl.width)), r.sm)
    ensures r == e.(sm := r.sm, ctl := r.ctl.(BW := e.ctl.BW))
  {
    var sm := Advance(lib, e.sm);
    NextValuePositive(lib, e.sm.rate);
    e.(sm := sm,
       ctl := e.ctl.(rate := sm.rate.currentValue, depth := sm.depth.currentValue,
                     width := sm.width.currentValue, mix := sm.mix.currentValue,
                     centerfreq := sm.centerfreq.currentValue,
                     numStages := TruncateToInt(sm.numstages.currentValue)))
  }

  /** The second part: the oscillator is retuned to the smoothed rate and advanced by one
      sample with input 0, writing its outputs into the three output slots. */
  function Tick(e: Engine): (r: Engine)
    requires Idle(e) && e.ctl.rate > 0.0
    ensures Idle(r)
    ensures (r.osc, r.oscOut)
            == OscillatorSpec.GetNextSample(OscillatorSpec.SetFrequency(e.osc, e.ctl.rate), e.oscOut, 0.0)
    ensures r == e.(osc := r.osc, oscOut := r.oscOut)
  {
    var next := OscillatorSpec.GetNextSample(OscillatorSpec.SetFrequency(e.osc, e.ctl.rate), e.oscOut, 0.0);
    e.(osc := next.0, oscOut := next.1)
  }

  /** The third part: the sweep width and the all-pass coefficients are rebuilt around the
      oscillator's first output. */
  function Rebuild(lib: Library, e: Engine): (r: Engine)
    requires |e.oscOut| == 3
    ensures r.ctl == e.ctl.(BW := Bandwidth(e.ctl.centerfreq, e.ctl.width))
    ensures AllPassForm(r.sec, r.ctl.depth)
    ensures r.sec.Re == AllPassRe(lib, r.ctl.depth, e.timing.Omega, r.ctl.centerfreq, r.ctl.BW, e.oscOut[0])
    ensures r == e.(ctl := r.ctl, sec := r.sec)
  {
    var BW := Bandwidth(e.ctl.centerfreq, e.ctl.width);
    var Re := AllPassRe(lib, e.ctl.depth, e.timing.Omega, e.ctl.centerfreq, BW, e.oscOut[0]);
    var z2 := Squared(e.ctl.depth);
    e.(ctl := e.ctl.(BW := BW), sec := Section(1.0, Re, z2, z2, Re, 1.0, Re, z2))
  }

  /** The per-sample control update shared by the stereo and mono loops: every smoother steps
      once and the control values track them, the oscillator is retuned to the smoothed rate and
      advanced by one sample with input 0, and the all-pass coefficients are rebuilt around the
      oscillator's first output. Filters, timing, sample fields and the flag are untouched. */
  function Modulate(lib: Library, e: Engine): (r: Engine)
    requires Glides(lib) && Ready(e)
    ensures Ready(r) && r.ctl.rate > 0.0
    ensures r.sm == Advance(lib, e.sm) && Tracks(r.ctl, r.sm)
    ensures (r.osc, r.oscOut)
            == OscillatorSpec.GetNextSample(OscillatorSpec.SetFrequency(e.osc, r.ctl.rate), e.oscOut, 0.0)
    ensures AllPassForm(r.sec, r.ctl.depth)
    ensures r.sec.Re == AllPassRe(lib, r.ctl.depth, e.timing.Omega, r.ctl.centerfreq, r.ctl.BW, r.oscOut[0])
    ensures r.filterAP1L == e.filterAP1L && r.filterAP1R == e.filterAP1R
    ensures r.timing == e.timing && r.taps == e.taps && r.resetICflag == e.resetICflag
  {
    Rebuild(lib, Tick(Smooth(lib, e)))
  }

  /** Modulate does not look at the sample fields: changing them first changes nothing else. */
  lemma ModulateIgnoresTaps(lib: Library, e: Engine, t: Taps)
    requires Glides(lib) && Ready(e)
    ensures Modulate(lib, e.(taps := t)) == Modulate(lib, e).(taps := t)
  {
  }

  /** The stage loop on one channel: the sample passes through the filter n times (no pass when
      n is not positive), each pass feeding the previous output back in. Only the filter's
      state variables change. */
  function Cascade(lib: Library, f: IIRFilter, x: real, n: int): (r: (real, IIRFilter))
    ensures r.1.coefficients == f.coefficients
    decreases n
  {
    if n <= 0 then (x, f)
    else
      var p := Cascade(lib, f, x, n - 1);
      ProcessSingleSampleRaw(lib, p.1, p.0)
  }

  /** Running m passes and then n more is running m + n passes. */
  lemma {:induction false} CascadeCompose(lib: Library, f: IIRFilter, x: real, m: nat, n: nat)
    ensures var p := Cascade(lib, f, x, m);
            Cascade(lib, p.1, p.0, n) == Cascade(lib, f, x, m + n)
    decreases n
  {
    if n > 0 {
      CascadeCompose(lib, f, x, m, n - 1);
    }
  }

  /** An output sample: the dry input plus the wet signal scaled by mix. */
  function Blend(dry: real, wet: real, mix: real): real
  {
    dry + wet * mix
  }

  /** The filtering half of a stereo iteration: leftout and rightout start from leftin and
      rightin, both filters are given the section's coefficients, and each channel goes
      4 * numStages times through its own filter. */
  function FilterStereo(lib: Library, e: Engine): (r: Engine)
    ensures r == e.(taps := r.taps, filterAP1L := r.filterAP1L, filterAP1R := r.filterAP1R)
    ensures r.taps.leftin == e.taps.leftin && r.taps.rightin == e.taps.rightin
    ensures (r.taps.leftout, r.filterAP1L)
            == Cascade(lib, SetCoefficients(e.filterAP1L, Coefficients(e.sec)), e.taps.leftin, 4 * e.ctl.numStages)
    ensures (r.taps.rightout, r.filterAP1R)
            == Cascade(lib, SetCoefficients(e.filterAP1R, Coefficients(e.sec)), e.taps.rightin, 4 * e.ctl.numStages)
  {
    var c := Coefficients(e.sec);
    var n := 4 * e.ctl.numStages;
    var left := Cascade(lib, SetCoefficients(e.filterAP1L, c), e.taps.leftin, n);
    var right := Cascade(lib, SetCoefficients(e.filterAP1R, c), e.taps.rightin, n);
    e.(taps := e.taps.(leftout := left.0, rightout := right.0), filterAP1L := left.1, filterAP1R := right.1)
  }

  /** One iteration of the stereo loop: the samples are stored in leftin and rightin, the
      controls advance, and each sample goes 4 * numStages times through its own filter, both
      filters holding the freshly built all-pass coefficients; each output is the dry input
      plus the wet signal scaled by mix. */
  function StereoSample(lib: Library, e: Engine, l: real, r: real): (res: (Engine, real, real))
    requires Glides(lib) && Ready(e)
    ensures Ready(res.0) && res.0.timing == e.timing && res.0.resetICflag == e.resetICflag
  {
    var loaded := e.(taps := e.taps.(leftin := l, rightin := r));
    ModulateIgnoresTaps(lib, e, loaded.taps);
    var n := FilterStereo(lib, Modulate(lib, loaded));
    (n, Blend(l, n.taps.leftout, n.ctl.mix), Blend(r, n.taps.rightout, n.ctl.mix))
  }

  /** What one stereo iteration does: the controls advance and track their smoothers, the
      section has the all-pass form, each sample goes 4 * numStages times through its own
      filter holding the fresh coefficients, each output is the dry input plus the wet signal
      scaled by mix, and the oscillator takes exactly the step Modulate gives it. */
  lemma StereoSampleMeaning(lib: Library, e: Engine, l: real, r: real)
    requires Glides(lib) && Ready(e)
    ensures var res := StereoSample(lib, e, l, r);
            var n := res.0;
            && Ready(n) && AllPassForm(n.sec, n.ctl.depth)
            && n.sm == Advance(lib, e.sm) && Tracks(n.ctl, n.sm)
            && n.taps.leftin == l && n.taps.rightin == r
            && (n.taps.leftout, n.filterAP1L)
               == Cascade(lib, SetCoefficients(e.filterAP1L, Coefficients(n.sec)), l, 4 * n.ctl.numStages)
            && (n.taps.rightout, n.filterAP1R)
               == Cascade(lib, SetCoefficients(e.filterAP1R, Coefficients(n.sec)), r, 4 * n.ctl.numStages)
            && res.1 == Blend(l, n.taps.leftout, n.ctl.mix)
            && res.2 == Blend(r, n.taps.rightout, n.ctl.mix)
            && res.0.osc == Modulate(lib, e).osc && res.0.oscOut == Modulate(lib, e).oscOut
            && res.0.timing == e.timing && res.0.resetICflag == e.resetICflag
  {
    ModulateIgnoresTaps(lib, e, e.taps.(leftin := l, rightin := r));
  }

  /** The filtering half of a mono iteration: a local copy of leftin goes 4 * numStages times
      through the left filter, which is given the section's coefficients first; the result is
      the engine with its new left filter, and the filtered sample. */
  function FilterMono(lib: Library, e: Engine): (r: (Engine, real))
    ensures r.0 == e.(filterAP1L := r.0.filterAP1L)
    ensures (r.1, r.0.filterAP1L)
            == Cascade(lib, SetCoefficients(e.filterAP1L, Coefficients(e.sec)), e.taps.leftin, 4 * e.ctl.numStages)
  {
    var left := Cascade(lib, SetCoefficients(e.filterAP1L, Coefficients(e.sec)), e.taps.leftin, 4 * e.ctl.numStages);
    (e.(filterAP1L := left.1), left.0)
  }

  /** One iteration of the mono loop. The source declares a local `leftout` here, so the member
      fields leftout, rightin and rightout keep their values, and the right filter is neither
      given coefficients nor run. */
  function MonoSample(lib: Library, e: Engine, x: real): (res: (Engine, real))
    requires Glides(lib) && Ready(e)
    ensures Ready(res.0) && res.0.timing == e.timing && res.0.resetICflag == e.resetICflag
  {
    var loaded := e.(taps := e.taps.(leftin := x));
    ModulateIgnoresTaps(lib, e, loaded.taps);
    var f := FilterMono(lib, Modulate(lib, loaded));
    (f.0, Blend(x, f.1, f.0.ctl.mix))
  }

  /** What one mono iteration does: as a stereo iteration on the left channel, with the member
      taps other than leftin and the right filter left alone. */
  lemma MonoSampleMeaning(lib: Library, e: Engine, x: real)
    requires Glides(lib) && Ready(e)
    ensures var res := MonoSample(lib, e, x);
            var n := res.0;
            var wet := Cascade(lib, SetCoefficients(e.filterAP1L, Coefficients(n.sec)), x, 4 * n.ctl.numStages);
            && Ready(n) && AllPassForm(n.sec, n.ctl.depth)
            && n.sm == Advance(lib, e.sm) && Tracks(n.ctl, n.sm)
            && n.taps == e.taps.(leftin := x)
            && n.filterAP1L == wet.1 && res.1 == Blend(x, wet.0, n.ctl.mix)
            && res.0.filterAP1R == e.filterAP1R
            && res.0.osc == Modulate(lib, e).osc && res.0.oscOut == Modulate(lib, e).oscOut
            && res.0.timing == e.timing && res.0.resetICflag == e.resetICflag
  {
    ModulateIgnoresTaps(lib, e, e.taps.(leftin := x));
  }

  /** A stereo iteration is the load, Modulate and FilterStereo in turn. */
  lemma StereoSampleParts(lib: Library, e: Engine, l: real, r: real)
    requires Glides(lib) && Ready(e)
    ensures StereoSample(lib, e, l, r).0 == FilterStereo(lib, Modulate(lib, e.(taps := e.taps.(leftin := l, rightin := r))))
  {
  }

  /** A mono iteration is the load, Modulate and FilterMono in turn. */
  lemma MonoSampleParts(lib: Library, e: Engine, x: real)
    requires Glides(lib) && Ready(e)
    ensures var f := FilterMono(lib, Modulate(lib, e.(taps := e.taps.(leftin := x))));
            MonoSample(lib, e, x).0 == f.0 && MonoSample(lib, e, x).1 == Blend(x, f.1, f.0.ctl.mix)
  {
  }

  /** Two engines that agree on everything the left channel depends on: they may differ only
      in the sample fields and the right filter. */
  predicate SameLeft(a: Engine, b: Engine)
  {
    a == b.(taps := a.taps, filterAP1R := a.filterAP1R)
  }

  /** Modulate reads neither the sample fields nor the right filter. */
  lemma ModulateIgnoresRight(lib: Library, a: Engine, b: Engine)
    requires Glides(lib) && Ready(a) && SameLeft(a, b)
    ensures Ready(b) && SameLeft(Modulate(lib, a), Modulate(lib, b))
  {
    ModulateIgnoresTaps(lib, a, b.taps);
    assert b == a.(taps := b.taps, filterAP1R := b.filterAP1R);
  }

  /** One stereo iteration gives the left channel the output one mono iteration gives it, from
      engines that agree on the left side, and leaves them agreeing on it: the right input never
      reaches the left output, the left filter, the controls or the oscillator. */
  lemma StereoLeftIsMono(lib: Library, a: Engine, b: Engine, l: real, r: real)
    requires Glides(lib) && Ready(a) && SameLeft(a, b)
    ensures Ready(b)
    ensures var s, m := StereoSample(lib, a, l, r), MonoSample(lib, b, l);
            s.1 == m.1 && SameLeft(s.0, m.0)
  {
    var la := a.(taps := a.taps.(leftin := l, rightin := r));
    var lb := b.(taps := b.taps.(leftin := l));
    ModulateIgnoresRight(lib, la, lb);
    StereoSampleParts(lib, a, l, r);
    MonoSampleParts(lib, b, l);
  }

  /** Over the whole stereo loop the left channel comes out exactly as the mono loop produces
      it, and the two engines end agreeing on the left side. */
  lemma {:induction false} StereoLoopLeftIsMono(lib: Library, a: Engine, b: Engine, L: seq<real>, R: seq<real>)
    requires Glides(lib) && Ready(a) && SameLeft(a, b) && |L| == |R|
    ensures Ready(b)
    ensures var s, m := StereoLoop(lib, a, L, R), MonoLoop(lib, b, L);
            s.1 == m.1 && SameLeft(s.0, m.0)
    decreases |L|
  {
    StereoLeftIsMono(lib, a, b, 0.0, 0.0);
    if |L| > 0 {
      StereoLoopFirst(lib, a, L, R);
      MonoLoopFirst(lib, b, L);
      StereoLeftIsMono(lib, a, b, L[0], R[0]);
      var q, m := StereoSample(lib, a, L[0], R[0]), MonoSample(lib, b, L[0]);
      StereoLoopLeftIsMono(lib, q.0, m.0, L[1..], R[1..]);
    }
  }

  /** A mix smoother resting at zero. */
  predicate MixAtRest(e: Engine)
  {
    e.sm.mix.currentValue == 0.0 && e.sm.mix.target == 0.0
  }

  /** With the mix smoother at rest at zero, one stereo sample passes both inputs through and
      leaves the smoother at rest. */
  lemma StereoSampleDry(lib: Library, e: Engine, l: real, r: real)
    requires Glides(lib) && Ready(e) && MixAtRest(e)
    ensures var res := StereoSample(lib, e, l, r);
            res.1 == l && res.2 == r && MixAtRest(res.0)
  {
    StereoSampleMeaning(lib, e, l, r);
    var n := StereoSample(lib, e, l, r).0;
    assert n.sm.mix == GetNextValue(lib, e.sm.mix);
  }

  /** The same for one mono sample. */
  lemma MonoSampleDry(lib: Library, e: Engine, x: real)
    requires Glides(lib) && Ready(e) && MixAtRest(e)
    ensures var res := MonoSample(lib, e, x);
            res.1 == x && MixAtRest(res.0)
  {
    MonoSampleMeaning(lib, e, x);
    var n := MonoSample(lib, e, x).0;
    assert n.sm.mix == GetNextValue(lib, e.sm.mix);
  }

  // ---------------------------------------------------------------------------------------
  // The sample loops

  /** The stereo loop over the samples of L and R. */
  function StereoLoop(lib: Library, e: Engine, L: seq<real>, R: seq<real>): (res: (Engine, seq<real>, seq<real>))
    requires Glides(lib) && Ready(e) && |L| == |R|
    ensures Ready(res.0) && |res.1| == |L| && |res.2| == |R|
    ensures res.0.timing == e.timing && res.0.resetICflag == e.resetICflag
    decreases |L|
  {
    if |L| == 0 then (e, [], [])
    else
      var q := StereoSample(lib, e, L[0], R[0]);
      var p := StereoLoop(lib, q.0, L[1..], R[1..]);
      (p.0, [q.1] + p.1, [q.2] + p.2)
  }

  /** The mono loop. */
  function MonoLoop(lib: Library, e: Engine, X: seq<real>): (res: (Engine, seq<real>))
    requires Glides(lib) && Ready(e)
    ensures Ready(res.0) && |res.1| == |X|
    ensures res.0.timing == e.timing && res.0.resetICflag == e.resetICflag
    decreases |X|
  {
    if |X| == 0 then (e, [])
    else
      var q := MonoSample(lib, e, X[0]);
      var p := MonoLoop(lib, q.0, X[1..]);
      (p.0, [q.1] + p.1)
  }

  /** The first iteration of the stereo loop, and the loop over the remaining samples. */
  lemma StereoLoopFirst(lib: Library, e: Engine, L: seq<real>, R: seq<real>)
    requires Glides(lib) && Ready(e) && |L| == |R| > 0
    ensures var q := StereoSample(lib, e, L[0], R[0]);
            var p := StereoLoop(lib, q.0, L[1..], R[1..]);
            var res := StereoLoop(lib, e, L, R);
            res.0 == p.0 && res.1 == [q.1] + p.1 && res.2 == [q.2] + p.2
  {
  }

  /** The first iteration of the mono loop, and the loop over the remaining samples. */
  lemma MonoLoopFirst(lib: Library, e: Engine, X: seq<real>)
    requires Glides(lib) && Ready(e) && |X| > 0
    ensures var q := MonoSample(lib, e, X[0]);
            var p := MonoLoop(lib, q.0, X[1..]);
            var res := MonoLoop(lib, e, X);
            res.0 == p.0 && res.1 == [q.1] + p.1
  {
  }

  /** One iteration of the stereo loop at sample `samp`, as the loop over the suffix sees it:
      if the loop over the suffix from `samp` produces the tail of `final`, then the sample
      produces the entries of `final` at `samp` and the loop over the next suffix the rest. */
  lemma StereoLoopStep(lib: Library, e: Engine, L: seq<real>, R: seq<real>, samp: int,
                       final: (Engine, seq<real>, seq<real>))
    requires Glides(lib) && Ready(e) && |L| == |R| == |final.1| == |final.2| && 0 <= samp < |L|
    requires var rest := StereoLoop(lib, e, L[samp..], R[samp..]);
             rest.0 == final.0 && rest.1 == final.1[samp..] && rest.2 == final.2[samp..]
    ensures var q := StereoSample(lib, e, L[samp], R[samp]);
            var rest := StereoLoop(lib, q.0, L[samp + 1..], R[samp + 1..]);
            q.1 == final.1[samp] && q.2 == final.2[samp]
            && rest.0 == final.0 && rest.1 == final.1[samp + 1..] && rest.2 == final.2[samp + 1..]
  {
    var sL, sR := L[samp..], R[samp..];
    assert sL[0] == L[samp] && sR[0] == R[samp];
    assert sL[1..] == L[samp + 1..] && sR[1..] == R[samp + 1..];
    StereoLoopFirst(lib, e, sL, sR);
    assert final.1[samp..][1..] == final.1[samp + 1..] && final.2[samp..][1..] == final.2[samp + 1..];
  }

  /** One iteration of the mono loop at sample `samp`. */
  lemma MonoLoopStep(lib: Library, e: Engine, X: seq<real>, samp: int, final: (Engine, seq<real>))
    requires Glides(lib) && Ready(e) && |X| == |final.1| && 0 <= samp < |X|
    requires var rest := MonoLoop(lib, e, X[samp..]); rest.0 == final.0 && rest.1 == final.1[samp..]
    ensures var q := MonoSample(lib, e, X[samp]);
            var rest := MonoLoop(lib, q.0, X[samp + 1..]);
            q.1 == final.1[samp] && rest.0 == final.0 && rest.1 == final.1[samp + 1..]
  {
    var s := X[samp..];
    assert s[0] == X[samp] && s[1..] == X[samp + 1..];
    MonoLoopFirst(lib, e, s);
    assert final.1[samp..][1..] == final.1[samp + 1..];
  }

  /** A sequence is its first element followed by the rest. */
  lemma HeadTail(X: seq<real>, x: real, rest: seq<real>)
    requires |X| > 0 && x == X[0] && rest == X[1..]
    ensures [x] + rest == X
  {
  }

  lemma {:induction false} StereoMixZeroIsDry(lib: Library, e: Engine, L: seq<real>, R: seq<real>)
    requires Glides(lib) && Ready(e) && |L| == |R| && MixAtRest(e)
    ensures var res := StereoLoop(lib, e, L, R);
            res.1 == L && res.2 == R && MixAtRest(res.0)
    decreases |L|
  {
    if |L| > 0 {
      StereoSampleDry(lib, e, L[0], R[0]);
      var q := StereoSample(lib, e, L[0], R[0]);
      StereoMixZeroIsDry(lib, q.0, L[1..], R[1..]);
      var p := StereoLoop(lib, q.0, L[1..], R[1..]);
      HeadTail(L, q.1, p.1);
      HeadTail(R, q.2, p.2);
    }
  }

  lemma {:induction false} MonoMixZeroIsDry(lib: Library, e: Engine, X: seq<real>)
    requires Glides(lib) && Ready(e) && MixAtRest(e)
    ensures var res := MonoLoop(lib, e, X);
            res.1 == X && MixAtRest(res.0)
    decreases |X|
  {
    if |X| > 0 {
      MonoSampleDry(lib, e, X[0]);
      var q := MonoSample(lib, e, X[0]);
      MonoMixZeroIsDry(lib, q.0, X[1..]);
      HeadTail(X, q.1, MonoLoop(lib, q.0, X[1..]).1);
    }
  }

  /** One sample advances a phase-counter waveform (types 2 to 6) by one count and keeps the
      oscillator's type. */
  lemma ModulateAdvancesOscillator(lib: Library, e: Engine)
    requires Glides(lib) && Ready(e) && 2 <= e.osc.currentOscillatorType <= 6
    ensures Modulate(lib, e).osc.currentOscillatorType == e.osc.currentOscillatorType
    ensures Modulate(lib, e).osc.oscCounter == e.osc.oscCounter + 1.0
  {
    var m := Modulate(lib, e);
    var tuned := OscillatorSpec.SetFrequency(e.osc, m.ctl.rate);
    assert tuned.currentOscillatorType == e.osc.currentOscillatorType && tuned.oscCounter == e.osc.oscCounter;
  }

  /** The oscillator advances exactly once per sample: for the phase-counter waveforms
      (types 2 to 6) the counter moves by the number of samples in the block, and the type is
      never changed by the loop. */
  lemma {:induction false} StereoLoopAdvancesOscillator(lib: Library, e: Engine, L: seq<real>, R: seq<real>)
    requires Glides(lib) && Ready(e) && |L| == |R|
    requires 2 <= e.osc.currentOscillatorType <= 6
    ensures var res := StereoLoop(lib, e, L, R);
            res.0.osc.currentOscillatorType == e.osc.currentOscillatorType
            && res.0.osc.oscCounter == e.osc.oscCounter + |L| as real
    decreases |L|
  {
    if |L| > 0 {
      ModulateAdvancesOscillator(lib, e);
      StereoSampleMeaning(lib, e, L[0], R[0]);
      var q := StereoSample(lib, e, L[0], R[0]);
      StereoLoopAdvancesOscillator(lib, q.0, L[1..], R[1..]);
    }
  }

  /** The same for the mono loop. */
  lemma {:induction false} MonoLoopAdvancesOscillator(lib: Library, e: Engine, X: seq<real>)
    requires Glides(lib) && Ready(e)
    requires 2 <= e.osc.currentOscillatorType <= 6
    ensures var res := MonoLoop(lib, e, X);
            res.0.osc.currentOscillatorType == e.osc.currentOscillatorType
            && res.0.osc.oscCounter == e.osc.oscCounter + |X| as real
    decreases |X|
  {
    if |X| > 0 {
      ModulateAdvancesOscillator(lib, e);
      MonoSampleMeaning(lib, e, X[0]);
      var q := MonoSample(lib, e, X[0]);
      MonoLoopAdvancesOscillator(lib, q.0, X[1..]);
    }
  }

  // ---------------------------------------------------------------------------------------
  // mainEffectLoop and process

  /** Every channel of the buffer holds `nums` samples. */
  predicate Shaped(buf: seq<seq<real>>, nums: int)
  {
    forall c :: 0 <= c < |buf| ==> |buf[c]| == nums
  }

  /** Each smoother is told its parameter's value. */
  function Retarget(lib: Library, sm: Smoothers, h: Host): (r: Smoothers)
    requires Glides(lib)
    ensures r.rate == SetValue(lib, sm.rate, h.rate) && r.depth == SetValue(lib, sm.depth, h.depth)
    ensures r.width == SetValue(lib, sm.width, h.width) && r.mix == SetValue(lib, sm.mix, h.mix)
    ensures r.centerfreq == SetValue(lib, sm.centerfreq, h.centerfreq)
    ensures r.numstages == SetValue(lib, sm.numstages, h.stages as real)
  {
    Smoothers(SetValue(lib, sm.depth, h.depth), SetValue(lib, sm.rate, h.rate), SetValue(lib, sm.width, h.width),
              SetValue(lib, sm.centerfreq, h.centerfreq), SetValue(lib, sm.mix, h.mix),
              SetValue(lib, sm.numstages, h.stages as real))
  }

  /** The timing of a block: its sample and channel counts, the host sample rate, the sample
      period and the angular frequency 2 pi / sampRate. */
  function BlockTiming(nums: int, chans: int, sampleRate: real): (t: Timing)
    requires sampleRate > 0.0
    ensures t.nums == nums && t.chans == chans && t.sampRate == sampleRate
  {
    Timing(nums, chans, sampleRate, Quotient(1.0, sampleRate), Quotient(2.0 * DoublePi, sampleRate))
  }

  /** sampTime is the sample period, and Omega is one full turn per sample period. */
  lemma BlockTimingPeriod(nums: int, chans: int, sampleRate: real)
    requires sampleRate > 0.0
    ensures var t := BlockTiming(nums, chans, sampleRate);
            t.sampTime * sampleRate == 1.0 && t.Omega * sampleRate == 2.0 * DoublePi && t.sampTime > 0.0
  {
  }

  /** The block timing is set and each smoother is told its parameter's value. */
  function Retuned(lib: Library, e: Engine, h: Host, nums: int, chans: int): Engine
    requires Glides(lib) && HostOk(h)
  {
    e.(timing := BlockTiming(nums, chans, h.sampleRate), sm := Retarget(lib, e.sm, h))
  }

  /** A pending initial-condition request is applied to the oscillator and cleared; without
      one nothing changes. */
  function PendingICs(e: Engine, ics: seq<real>): Engine
    requires |ics| >= 3
  {
    if e.resetICflag then e.(osc := OscillatorSpec.ResetICs(e.osc, ics), resetICflag := false)
    else e
  }

  /** The part of mainEffectLoop before the sample loops: block sizes and timing, each
      smoother told its parameter's value, and a pending initial-condition reset applied once
      and cleared. */
  function BlockStart(lib: Library, e: Engine, h: Host, nums: int, chans: int): (r: Engine)
    requires Glides(lib) && HostOk(h) && Idle(e)
    ensures Ready(r) && !r.resetICflag && r.timing == BlockTiming(nums, chans, h.sampleRate)
  {
    SetValueNonNegative(lib, e.sm.rate, h.rate);
    PendingICs(Retuned(lib, e, h, nums, chans), h.ics)
  }

  /** What the block start does to each part of the engine: the smoothers take the host's
      values, the oscillator takes the initial conditions exactly when a reset is pending, and
      the filters, controls, section and taps are left alone. */
  lemma BlockStartMeaning(lib: Library, e: Engine, h: Host, nums: int, chans: int)
    requires Glides(lib) && HostOk(h) && Idle(e)
    ensures var r := BlockStart(lib, e, h, nums, chans);
            && r.sm == Retarget(lib, e.sm, h)
            && r.osc == (if e.resetICflag then OscillatorSpec.ResetICs(e.osc, h.ics) else e.osc)
            && r.oscOut == e.oscOut && r.filterAP1L == e.filterAP1L && r.filterAP1R == e.filterAP1R
            && r.ctl == e.ctl && r.sec == e.sec && r.taps == e.taps
  {
  }

  /** The initial conditions are applied at most once per request: the block start clears the
      flag, so the next block start leaves the oscillator where the first one put it. */
  lemma PendingICsAppliedOnce(lib: Library, e: Engine, h: Host, h': Host, nums: int, chans: int)
    requires Glides(lib) && HostOk(h) && HostOk(h') && Idle(e)
    ensures var first := BlockStart(lib, e, h, nums, chans);
            BlockStart(lib, first, h', nums, chans).osc == first.osc
  {
    var first := BlockStart(lib, e, h, nums, chans);
    BlockStartMeaning(lib, first, h', nums, chans);
  }

  /** The sample loops of mainEffectLoop on a buffer of `chans` channels: the stereo loop for
      two channels, then the mono loop for one; for any other count no sample is touched. */
  function Channels(lib: Library, s: Engine, buf: seq<seq<real>>): (r: (Engine, seq<seq<real>>))
    requires Glides(lib) && Ready(s) && s.timing.chans == |buf| && Shaped(buf, s.timing.nums)
    ensures Ready(r.0) && r.0.timing == s.timing && r.0.resetICflag == s.resetICflag
    ensures |r.1| == |buf| && Shaped(r.1, s.timing.nums)
    ensures |buf| != 1 && |buf| != 2 ==> r.0 == s && r.1 == buf
  {
    var stereo :=
      if s.timing.chans == 2 then
        var p := StereoLoop(lib, s, buf[0], buf[1]);
        (p.0, buf[0 := p.1][1 := p.2])
      else (s, buf);
    if stereo.0.timing.chans == 1 then
      var p := MonoLoop(lib, stereo.0, stereo.1[0]);
      (p.0, stereo.1[0 := p.1])
    else stereo
  }

  /** mainEffectLoop on a buffer of |buf| channels of `nums` samples: the block start, then
      the sample loops. */
  function MainEffect(lib: Library, e: Engine, h: Host, buf: seq<seq<real>>, nums: int): (r: (Engine, seq<seq<real>>))
    requires Glides(lib) && HostOk(h) && Idle(e) && Shaped(buf, nums)
    ensures Idle(r.0) && !r.0.resetICflag && r.0.timing == BlockTiming(nums, |buf|, h.sampleRate)
    ensures |r.1| == |buf| && Shaped(r.1, nums)
    ensures |buf| != 1 && |buf| != 2 ==> r.1 == buf && r.0 == BlockStart(lib, e, h, nums, |buf|)
  {
    Channels(lib, BlockStart(lib, e, h, nums, |buf|), buf)
  }

  /** With the mix parameter at zero and its smoother resting at zero, mainEffectLoop leaves
      every sample as it was. */
  lemma MixZeroIsDry(lib: Library, e: Engine, h: Host, buf: seq<seq<real>>, nums: int)
    requires Glides(lib) && HostOk(h) && Idle(e) && Shaped(buf, nums)
    requires h.mix == 0.0 && e.sm.mix.currentValue == 0.0
    ensures MainEffect(lib, e, h, buf, nums).1 == buf
  {
    var s := BlockStart(lib, e, h, nums, |buf|);
    BlockStartMixAtRest(lib, e, h, nums, |buf|);
    if |buf| == 2 {
      StereoMixZeroIsDry(lib, s, buf[0], buf[1]);
      var p := StereoLoop(lib, s, buf[0], buf[1]);
      assert MainEffect(lib, e, h, buf, nums).1 == buf[0 := p.1][1 := p.2];
      UpdateSelf(buf, 0);
      UpdateSelf(buf, 1);
    } else if |buf| == 1 {
      MonoMixZeroIsDry(lib, s, buf[0]);
      var p := MonoLoop(lib, s, buf[0]);
      assert MainEffect(lib, e, h, buf, nums).1 == buf[0 := p.1];
      UpdateSelf(buf, 0);
    }
  }

  /** Writing a channel back unchanged leaves the buffer as it was. */
  lemma UpdateSelf(buf: seq<seq<real>>, c: int)
    requires 0 <= c < |buf|
    ensures buf[c := buf[c]] == buf
  {
  }

  lemma BlockStartMixAtRest(lib: Library, e: Engine, h: Host, nums: int, chans: int)
    requires Glides(lib) && HostOk(h) && Idle(e)
    requires h.mix == 0.0 && e.sm.mix.currentValue == 0.0
    ensures MixAtRest(BlockStart(lib, e, h, nums, chans))
  {
    SmootherAtRest(lib, e.sm.mix, 0.0);
  }

  /** A channel of n zero samples. */
  function Zeros(n: nat): (z: seq<real>)
    ensures |z| == n && forall j :: 0 <= j < n ==> z[j] == 0.0
  {
    seq(n, j => 0.0)
  }

  /** The clearing loop at the head of process: the channels from the input count up to the
      output count are silenced, and every other channel is left as it was. */
  function ClearChannels(buf: seq<seq<real>>, from: int, to: int): (r: seq<seq<real>>)
    ensures |r| == |buf|
    ensures forall c :: 0 <= c < |buf| ==> r[c] == (if from <= c < to then Zeros(|buf[c]|) else buf[c])
  {
    seq(|buf|, c requires 0 <= c < |buf| => if from <= c < to then Zeros(|buf[c]|) else buf[c])
  }

  /** process: clear the output-only channels, run mainEffectLoop when the power parameter is
      on, then the crossfade step (whose channel loop never runs, so it only clears the flag),
      and finally copy the buffer into the crossfade buffer. */
  function Process(lib: Library, p: Processor, h: Host, buf: seq<seq<real>>, nums: int): (r: (Processor, seq<seq<real>>))
    requires Glides(lib) && HostOk(h) && Idle(p.engine) && Shaped(buf, nums)
    requires h.numInputChannels < h.numOutputChannels ==> h.numOutputChannels <= |buf|
    ensures Idle(r.0.engine) && |r.1| == |buf| && Shaped(r.1, nums)
    ensures r.0.effectOn == h.power
    ensures !r.0.crossFadeFlag
    ensures r.0.crossFadeBuffer == r.1
    ensures !h.power ==> r.0.engine == p.engine && r.1 == ClearChannels(buf, h.numInputChannels, h.numOutputChannels)
    ensures h.power ==> (r.0.engine, r.1) == MainEffect(lib, p.engine, h, ClearChannels(buf, h.numInputChannels, h.numOutputChannels), nums)
  {
    var cleared := ClearChannels(buf, h.numInputChannels, h.numOutputChannels);
    var effectOn := h.power;
    var m := if effectOn then MainEffect(lib, p.engine, h, cleared, nums) else (p.engine, cleared);
    var crossFadeFlag := if p.crossFadeFlag then false else p.crossFadeFlag;
    (Processor(m.0, effectOn, crossFadeFlag, m.1), m.1)
  }

  /** process as its parts: the engine and buffer after the optional mainEffectLoop, the
      power flag, and a cleared crossfade flag. */
  lemma ProcessParts(lib: Library, p: Processor, h: Host, buf: seq<seq<real>>, nums: int, eng: Engine, out: seq<seq<real>>)
    requires Glides(lib) && HostOk(h) && Idle(p.engine) && Shaped(buf, nums)
    requires h.numInputChannels < h.numOutputChannels ==> h.numOutputChannels <= |buf|
    requires var cleared := ClearChannels(buf, h.numInputChannels, h.numOutputChannels);
             if h.power then eng == MainEffect(lib, p.engine, h, cleared, nums).0 && out == MainEffect(lib, p.engine, h, cleared, nums).1
             else eng == p.engine && out == cleared
    ensures var r := Process(lib, p, h, buf, nums);
            r.0 == Processor(eng, h.power, false, out) && r.1 == out
  {
  }

  /** With the power off, process passes the input channels through untouched, silences the
      channels between the input and output counts, and leaves the engine as it was. */
  lemma PowerOffPassesThrough(lib: Library, p: Processor, h: Host, buf: seq<seq<real>>, nums: int)
    requires Glides(lib) && HostOk(h) && Idle(p.engine) && Shaped(buf, nums)
    requires h.numInputChannels < h.numOutputChannels ==> h.numOutputChannels <= |buf|
    requires !h.power
    ensures var r := Process(lib, p, h, buf, nums);
            && (forall c :: 0 <= c < |buf| && c < h.numInputChannels ==> r.1[c] == buf[c])
            && (forall c, j :: h.numInputChannels <= c < h.numOutputChannels && 0 <= j < nums ==> r.1[c][j] == 0.0)
            && r.0.engine == p.engine
  {
  }
}

/** The oscillator bank of Source/Oscillators.cpp as pure transitions on a snapshot of its
    fields. `float` and `double` are modelled as `real`, so every update rule is exact. The class
    in OscillatorBank.dfy performs these transitions in place and is proved against them. */
module OscillatorSpec {
  import opened CMath

  // Constants of Source/Oscillators.h.
  const PI: real := 3.141592653589793
  const TAU: real := 2.0 * PI
  const chuaParam1: real := 4.0
  const chuaParam2: real := 100.0 / 7.0
  const chua1: real := 8.0 / 7.0
  const chua2: real := 5.0 / 7.0
  const duffing2: real := 5.0
  const duffing3: real := 0.02
  const lorenz1: real := 10.0
  const lorenz2: real := 8.0 / 3.0
  const lorenz3: real := 28.0

  // The header's OscTypes enum, with the values it declares. The update switch in
  // getNextSample is keyed on the integers: it runs the Van der Pol equations for 7 and the
  // Duffing equations for 8, the other way round from the names below.
  const Sine: int := 1
  const Triangle: int := 2
  const Square: int := 3
  const Saw: int := 4
  const AASquare: int := 5
  const AASaw: int := 6
  const Duffing: int := 7
  const Vanderpol: int := 8
  const Chua: int := 9
  const Lorenz: int := 10

  /** Every field of an Oscillators object that some member reads or writes. */
  datatype OscState = OscState(
    delay1: real, delay2: real, delay3: real,
    oscCounter: real,
    currentOscillatorType: int,
    oscParam1: real, oscParam2: real, oscParam3: real,
    oscFreq: real, sampleRate: real, sampleTime: real,
    duffing1: real,
    delta: int, delta2: int)

  /** What every transition keeps: a positive sample rate whose reciprocal is the sample
      period, a positive period (in samples) for the phase-counter waveforms, and a counter
      that never goes negative. */
  predicate Ok(s: OscState)
  {
    && s.sampleRate > 0.0
    && s.sampleTime == Quotient(1.0, s.sampleRate)
    && s.oscParam2 > 0.0
    && s.oscCounter >= 0.0
  }

  /** The fields getNextSample never writes. */
  predicate SameTuning(a: OscState, b: OscState)
  {
    && a.currentOscillatorType == b.currentOscillatorType
    && a.oscParam1 == b.oscParam1 && a.oscParam2 == b.oscParam2 && a.oscParam3 == b.oscParam3
    && a.oscFreq == b.oscFreq && a.sampleRate == b.sampleRate && a.sampleTime == b.sampleTime
    && a.duffing1 == b.duffing1
  }

  /** The state the constructor leaves behind. The trigger flags `delta` and `delta2` have no
      initializer in the source, so they are whatever the caller passes here. */
  function Initial(delta: int, delta2: int): (s: OscState)
    ensures Ok(s)
    ensures s.currentOscillatorType == Sine && s.oscCounter == 0.0
  {
    OscState(0.1, 0.1, 0.1, 0.0, 1, 5.0, 0.1, 0.2, 440.0, 48000.0, 1.0 / 48000.0, -1.0, delta, delta2)
  }

  /** chuaNL: the piecewise-linear resistor of Chua's circuit. */
  function ChuaNL(x: real): (r: real)
    ensures -1.0 <= x <= 1.0 ==> r == -chua1 * x
    ensures x >= 1.0 ==> r == -chua2 * x - (chua1 - chua2)
    ensures x <= -1.0 ==> r == -chua2 * x + (chua1 - chua2)
  {
    -1.0 * chua2 * x - 0.5 * (chua1 - chua2) * (Abs(x + 1.0) - Abs(x - 1.0))
  }

  /** The nonlinearity is odd. */
  lemma ChuaNLOdd(x: real)
    ensures ChuaNL(-x) == -ChuaNL(x)
  {
  }

  // ---------------------------------------------------------------------------------------
  // Transitions other than getNextSample

  /** initializeChaos: non-degenerate initial conditions for the chaotic systems. */
  function InitializeChaos(s: OscState): (r: OscState)
    ensures Ok(r) == Ok(s)
  {
    s.(delay1 := 0.9, delay2 := -0.4, delay3 := -0.6)
  }

  /** reset: registers back to 0.1 and the phase counter back to zero. */
  function Reset(s: OscState): (r: OscState)
    ensures Ok(s) ==> Ok(r)
  {
    s.(delay1 := 0.1, delay2 := 0.1, delay3 := 0.1, oscCounter := 0.0)
  }

  /** resetICs: the three registers take the injected initial conditions. */
  function ResetICs(s: OscState, ics: seq<real>): (r: OscState)
    requires |ics| >= 3
    ensures [r.delay1, r.delay2, r.delay3] == ics[..3]
    ensures SameTuning(r, s) && r.oscCounter == s.oscCounter && r.delta == s.delta && r.delta2 == s.delta2
    ensures Ok(r) == Ok(s)
  {
    s.(delay1 := ics[0], delay2 := ics[1], delay3 := ics[2])
  }

  /** setType: records the tag, seeds the chaotic systems, then resets. Because reset runs
      last, the chaotic seed never survives: every tag, 9 and 10 included, ends with all three
      registers at 0.1 and the counter at zero. */
  function SetType(s: OscState, T: int): (r: OscState)
    ensures r == s.(currentOscillatorType := T, delay1 := 0.1, delay2 := 0.1, delay3 := 0.1, oscCounter := 0.0)
    ensures Ok(s) ==> Ok(r)
  {
    var typed := s.(currentOscillatorType := T);
    var seeded := if T == Lorenz || T == Chua then InitializeChaos(typed) else typed;
    Reset(seeded)
  }

  /** getType. */
  function GetType(s: OscState): int
  {
    s.currentOscillatorType
  }

  /** setSampleRate: the period follows the rate; the frequency-derived parameters are not
      recomputed until the next setFrequency. */
  function SetSampleRate(s: OscState, SR: real): (r: OscState)
    requires SR > 0.0
    ensures GetSampleRate(r) == SR
    ensures r.sampleTime * r.sampleRate == 1.0
    ensures Ok(s) ==> Ok(r)
    ensures r == s.(sampleRate := r.sampleRate, sampleTime := r.sampleTime)
  {
    s.(sampleRate := SR, sampleTime := Quotient(1.0, SR))
  }

  /** getSampleRate. */
  function GetSampleRate(s: OscState): real
  {
    s.sampleRate
  }

  /** getFrequency: the angular frequency converted back to hertz. */
  function GetFrequency(s: OscState): real
  {
    s.oscFreq / TAU
  }

  /** setFrequency: angular frequency, phase increment per sample, period in samples and the
      Duffing stiffness all follow the new frequency; getFrequency then gives it back. */
  function SetFrequency(s: OscState, freq: real): (r: OscState)
    requires Ok(s) && freq > 0.0
    ensures Ok(r)
    ensures GetFrequency(r) == freq
    ensures r.oscParam2 == s.sampleRate / freq
    ensures r.oscParam1 * r.oscParam2 == TAU
    ensures r.duffing1 == -1.0 - 10.0 * TAU * freq
    ensures r == s.(oscFreq := r.oscFreq, oscParam1 := r.oscParam1, oscParam2 := r.oscParam2, duffing1 := r.duffing1)
  {
    var oscFreq := TAU * freq;
    var oscParam1 := oscFreq / s.sampleRate;
    var oscParam2 := 1.0 / oscParam1 * TAU;
    s.(oscFreq := oscFreq, oscParam1 := oscParam1, oscParam2 := oscParam2, duffing1 := -1.0 - 10.0 * oscFreq)
  }

  // ---------------------------------------------------------------------------------------
  // getNextSample, one function per case of its switch

  /** A phase in [0, P) is a fraction in [0, 1) of the period, past one half exactly when the
      phase is past P/2. */
  lemma PhaseFraction(t: real, P: real)
    requires P > 0.0 && 0.0 <= t < P
    ensures 0.0 <= t / P < 1.0
    ensures t > P / 2.0 <==> t / P > 0.5
  {
    var f := t / P;
    assert f * P == t;
    MulSign(f, P);
    var h := f - 1.0;
    MulSign(h, P);
    assert h * P == t - P;
    var g := f - 0.5;
    MulSign(g, P);
    assert g * P == t - P / 2.0;
  }

  /** Case 1, Sine: forward-Euler harmonic pair writing both outputs back. */
  function SineUpdate(s: OscState, out: seq<real>, input: real): (r: (OscState, seq<real>))
    requires |out| == 3
    ensures |r.1| == 3 && r.1[2] == out[2]
    ensures r.0 == s.(delay1 := r.1[0], delay2 := r.1[1])
  {
    var t1 := s.delay1 + (s.oscFreq * s.oscFreq) * s.sampleTime * s.delay2;
    var t2 := s.delay2 - s.sampleTime * t1 + input;
    (s.(delay1 := t1, delay2 := t2), out[0 := t1][1 := t2])
  }

  /** Case 2, Triangle: ramps down then up over one period, within one unit of the input. */
  function TriangleUpdate(s: OscState, out: seq<real>, input: real): (r: (OscState, seq<real>))
    requires Ok(s) && |out| == 3
    ensures r.0 == s.(oscCounter := s.oscCounter + 1.0)
    ensures |r.1| == 3 && r.1[1..] == out[1..]
    ensures -1.0 <= r.1[0] - input <= 1.0
  {
    var c := s.oscCounter + 1.0;
    var P := s.oscParam2;
    var t3 := Fmod(c, P);
    PhaseFraction(t3, P);
    var o := if t3 > P / 2.0 then 4.0 * (t3 / P) - 3.0 + input else -4.0 * (t3 / P) + 1.0 + input;
    (s.(oscCounter := c), out[0 := o])
  }

  /** Case 3, Square: exactly one unit above or below the input. */
  function SquareUpdate(s: OscState, out: seq<real>, input: real): (r: (OscState, seq<real>))
    requires Ok(s) && |out| == 3
    ensures r.0 == s.(oscCounter := s.oscCounter + 1.0)
    ensures |r.1| == 3 && r.1[1..] == out[1..]
    ensures r.1[0] == 1.0 + input || r.1[0] == -1.0 + input
  {
    var c := s.oscCounter + 1.0;
    var P := s.oscParam2;
    var t4 := Fmod(c, P);
    var o := if t4 > P / 2.0 then 1.0 + input else -1.0 + input;
    (s.(oscCounter := c), out[0 := o])
  }

  /** The saw ramp shared by cases 4 and 6: the phase fraction remapped to [-1, 1). */
  function SawRamp(t5: real, P: real): (v: real)
    requires P > 0.0 && 0.0 <= t5 < P
    ensures -1.0 <= v < 1.0
  {
    PhaseFraction(t5, P);
    2.0 * (t5 / P - 0.5)
  }

  /** Case 4, Saw: a rising ramp over one period, in [-1, 1) around the input. */
  function SawUpdate(s: OscState, out: seq<real>, input: real): (r: (OscState, seq<real>))
    requires Ok(s) && |out| == 3
    ensures r.0 == s.(oscCounter := s.oscCounter + 1.0)
    ensures |r.1| == 3 && r.1[1..] == out[1..]
    ensures -1.0 <= r.1[0] - input < 1.0
  {
    var c := s.oscCounter + 1.0;
    var t5 := Fmod(c, s.oscParam2);
    (s.(oscCounter := c), out[0 := SawRamp(t5, s.oscParam2) + input])
  }

  /** Case 5, AASquare: the trigger `delta` is 0 on the first sample of every half period (the
      whole part of the phase within the half period is 0) and 1 otherwise; the output is the
      sign of the half times `delta`, so it is -1, 0 or 1 and the input is ignored. */
  function AASquareUpdate(s: OscState, out: seq<real>, input: real): (r: (OscState, seq<real>))
    requires Ok(s) && |out| == 3
    ensures r.0 == s.(oscCounter := s.oscCounter + 1.0, delta := r.0.delta)
    ensures |r.1| == 3 && r.1[1..] == out[1..]
    ensures r.1[0] == -1.0 || r.1[0] == 0.0 || r.1[0] == 1.0
    ensures r.0.delta == 0 <==> Fmod(s.oscCounter + 1.0, s.oscParam2 / 2.0) < 1.0
    ensures r.1[0] == 0.0 <==> r.0.delta == 0
  {
    var c := s.oscCounter + 1.0;
    var P := s.oscParam2;
    var t4 := TruncateToInt(Fmod(c, P / 2.0));
    var t5 := Fmod(c, P);
    var sign := if t5 > P / 2.0 then 1 else -1;
    var delta := if t4 != 0 then 1 else 0;
    (s.(oscCounter := c, delta := delta), out[0 := (sign * delta) as real])
  }

  /** AASquare ignores its input: the state and the outputs are the same whatever is added. */
  lemma AASquareIgnoresInput(s: OscState, out: seq<real>, i: real, j: real)
    requires Ok(s) && |out| == 3
    ensures AASquareUpdate(s, out, i) == AASquareUpdate(s, out, j)
  {
  }

  /** Case 6, AASaw: on the first sample of a period (`delta` is 0) the output drops to the
      input and `delta2` is armed; on the next sample it drops to one below the input and
      `delta2` is cleared; otherwise it follows the saw ramp. */
  function AASawUpdate(s: OscState, out: seq<real>, input: real): (r: (OscState, seq<real>))
    requires Ok(s) && |out| == 3
    ensures r.0 == s.(oscCounter := s.oscCounter + 1.0, delta := r.0.delta, delta2 := r.0.delta2)
    ensures |r.1| == 3 && r.1[1..] == out[1..]
    ensures -1.0 <= r.1[0] - input < 1.0
    ensures r.0.delta == 0 <==> Fmod(s.oscCounter + 1.0, s.oscParam2) < 1.0
    ensures r.0.delta == 0 ==> r.1[0] == input && r.0.delta2 == 1
    ensures r.0.delta != 0 && s.delta2 != 0 ==> r.1[0] == -1.0 + input && r.0.delta2 == 0
  {
    var c := s.oscCounter + 1.0;
    var P := s.oscParam2;
    var t4 := TruncateToInt(Fmod(c, P));
    var t5 := Fmod(c, P);
    var delta := if t4 != 0 then 1 else 0;
    if delta == 0 then
      (s.(oscCounter := c, delta := delta, delta2 := 1), out[0 := 0.0 + input])
    else if s.delta2 != 0 then
      (s.(oscCounter := c, delta := delta, delta2 := 0), out[0 := -1.0 + input])
    else
      (s.(oscCounter := c, delta := delta), out[0 := SawRamp(t5, P) + input])
  }

  /** The second Van der Pol output, computed from the new first output v1. */
  function VanderpolY(y: real, v1: real, T: real, input: real): real
  {
    y + T * ((1.0 - y * y) - v1) + input
  }

  /** Case 7, Van der Pol relaxation oscillator, writing both outputs back. */
  function VanderpolUpdate(s: OscState, out: seq<real>, input: real): (r: (OscState, seq<real>))
    requires |out| == 3
    ensures |r.1| == 3 && r.1[2] == out[2]
    ensures r.0 == s.(delay1 := r.1[0], delay2 := r.1[1])
  {
    var v1 := s.delay1 + s.oscFreq * s.oscFreq * s.sampleTime * s.delay2;
    var v2 := VanderpolY(s.delay2, v1, s.sampleTime, input);
    (s.(delay1 := v1, delay2 := v2), out[0 := v1][1 := v2])
  }

  /** Case 8, Duffing oscillator; both outputs are computed from the old registers. */
  function DuffingUpdate(s: OscState, out: seq<real>, input: real): (r: (OscState, seq<real>))
    requires |out| == 3
    ensures |r.1| == 3 && r.1[2] == out[2]
    ensures r.0 == s.(delay1 := r.1[0], delay2 := r.1[1])
  {
    var o0 := s.delay1 + s.sampleTime * s.delay2 + input;
    var o1 := s.delay2 + s.sampleTime * (duffing3 * s.delay2 - s.duffing1 * s.delay1 - duffing2 * s.delay1 * s.delay1 * s.delay1);
    (s.(delay1 := o0, delay2 := o1), out[0 := o0][1 := o1])
  }

  /** The second Chua output. */
  function ChuaY(x: real, y: real, z: real, T: real): real
  {
    y + T * (x - y + z)
  }

  /** The body of case 9, Chua's circuit, before control falls into case 10. */
  function ChuaUpdate(s: OscState, out: seq<real>, input: real): (r: (OscState, seq<real>))
    requires |out| == 3
    ensures |r.1| == 3
    ensures r.0 == s.(delay1 := r.1[0], delay2 := r.1[1], delay3 := r.1[2])
  {
    var o0 := s.delay1 + s.sampleTime * chuaParam1 * (s.delay2 - s.delay1 - ChuaNL(s.delay1)) + input;
    var o1 := ChuaY(s.delay1, s.delay2, s.delay3, s.sampleTime);
    var o2 := s.delay3 - s.sampleTime * chuaParam2 * s.delay2;
    (s.(delay1 := o0, delay2 := o1, delay3 := o2), [o0, o1, o2])
  }

  /** The first Lorenz output: x + T sigma (y - x) + input. */
  function LorenzX(x: real, y: real, T: real, input: real): real
  {
    x + T * lorenz1 * (y - x) + input
  }

  /** The second Lorenz output: y + T (x (rho - z) - y). */
  function LorenzY(x: real, y: real, z: real, T: real): real
  {
    y + T * (x * (lorenz3 - z) - y)
  }

  /** The third Lorenz output: z + T (x y - beta z). */
  function LorenzZ(x: real, y: real, z: real, T: real): real
  {
    z + T * (x * y - lorenz2 * z)
  }

  /** Case 10, the Lorenz system with sigma = 10, beta = 8/3, rho = 28. */
  function LorenzUpdate(s: OscState, out: seq<real>, input: real): (r: (OscState, seq<real>))
    requires |out| == 3
    ensures |r.1| == 3
    ensures r.0 == s.(delay1 := r.1[0], delay2 := r.1[1], delay3 := r.1[2])
  {
    var o0 := LorenzX(s.delay1, s.delay2, s.sampleTime, input);
    var o1 := LorenzY(s.delay1, s.delay2, s.delay3, s.sampleTime);
    var o2 := LorenzZ(s.delay1, s.delay2, s.delay3, s.sampleTime);
    (s.(delay1 := o0, delay2 := o1, delay3 := o2), [o0, o1, o2])
  }

  /** getNextSample: one step of the generator selected by the tag, returning the new state
      and the new contents of the three-slot output array. The phase-counter types 2 to 6
      advance the counter by one and leave the registers alone; the difference-equation types
      1, 7, 8, 9 and 10 leave the counter alone and keep their outputs in the registers; a tag
      outside 1..10 matches no case and changes nothing. */
  function GetNextSample(s: OscState, out: seq<real>, input: real): (r: (OscState, seq<real>))
    requires Ok(s) && |out| == 3
    ensures Ok(r.0) && |r.1| == 3
    ensures SameTuning(r.0, s)
    ensures 2 <= s.currentOscillatorType <= 6 ==>
              r.0.oscCounter == s.oscCounter + 1.0
              && r.0.delay1 == s.delay1 && r.0.delay2 == s.delay2 && r.0.delay3 == s.delay3
              && r.1[1..] == out[1..]
    ensures s.currentOscillatorType in {1, 7, 8, 9, 10} ==>
              r.0.oscCounter == s.oscCounter && r.0.delay1 == r.1[0] && r.0.delay2 == r.1[1]
              && r.0.delta == s.delta && r.0.delta2 == s.delta2
    ensures s.currentOscillatorType in {1, 7, 8} ==> r.0.delay3 == s.delay3 && r.1[2] == out[2]
    ensures s.currentOscillatorType in {9, 10} ==> r.0.delay3 == r.1[2]
    ensures !(1 <= s.currentOscillatorType <= 10) ==> r == (s, out)
  {
    match s.currentOscillatorType
    case 1 => SineUpdate(s, out, input)
    case 2 => TriangleUpdate(s, out, input)
    case 3 => SquareUpdate(s, out, input)
    case 4 => SawUpdate(s, out, input)
    case 5 => AASquareUpdate(s, out, input)
    case 6 => AASawUpdate(s, out, input)
    case 7 => VanderpolUpdate(s, out, input)
    case 8 => DuffingUpdate(s, out, input)
    case 9 =>
      // no break after case 9: the Lorenz update runs on the registers Chua just wrote
      var chua := ChuaUpdate(s, out, input);
      LorenzUpdate(chua.0, chua.1, input)
    case 10 => LorenzUpdate(s, out, input)
    case _ => (s, out)
  }

  // ---------------------------------------------------------------------------------------
  // Properties of getNextSample

  /** With no input, the Sine case keeps x^2 + w^2 y^2 + T w^2 x y unchanged, where x, y are
      the two registers, w the angular frequency and T the sample period: the Euler pair maps
      the register plane onto itself without changing area, so it stays on one conic. */
  function SineEnergy(s: OscState): real
  {
    var w2 := s.oscFreq * s.oscFreq;
    s.delay1 * s.delay1 + w2 * s.delay2 * s.delay2 + s.sampleTime * w2 * s.delay1 * s.delay2
  }

  lemma SineConservesEnergy(s: OscState, out: seq<real>)
    requires Ok(s) && |out| == 3 && s.currentOscillatorType == Sine
    ensures SineEnergy(GetNextSample(s, out, 0.0).0) == SineEnergy(s)
  {
    var w2, T, x, y := s.oscFreq * s.oscFreq, s.sampleTime, s.delay1, s.delay2;
    var x' := x + w2 * T * y;
    var y' := y - T * x';
    assert GetNextSample(s, out, 0.0).0 == s.(delay1 := x', delay2 := y');
    calc {
      x' * x' + w2 * y' * y' + T * w2 * x' * y';
    ==  // y' * y' + T * x' * y' == y' * (y' + T * x') == y' * y
      x' * x' + w2 * y' * y;
    ==  { assert x' * x' + w2 * y' * y == x' * (x' - w2 * T * y) + w2 * y * y; }
      x' * (x' - w2 * T * y) + w2 * y * y;
    ==  { assert x' - w2 * T * y == x; }
      x' * x + w2 * y * y;
    ==
      x * x + w2 * y * y + T * w2 * x * y;
    }
  }

  /** Case 9 has no break: one call applies the Chua update and then the Lorenz update to
      the registers Chua has just written. */
  lemma ChuaFallsThrough(s: OscState, out: seq<real>, input: real)
    requires Ok(s) && |out| == 3 && s.currentOscillatorType == Chua
    ensures var chua := ChuaUpdate(s, out, input);
            GetNextSample(s, out, input) == LorenzUpdate(chua.0, chua.1, input)
  {
  }

  /** For the Lorenz case the input is added once to the first output and nowhere else. */
  lemma LorenzInputGain(s: OscState, out: seq<real>, input: real)
    requires Ok(s) && |out| == 3 && s.currentOscillatorType == Lorenz
    ensures var a, b := GetNextSample(s, out, input), GetNextSample(s, out, 0.0);
            a.1 == b.1[0 := b.1[0] + input] && a.0 == b.0.(delay1 := b.0.delay1 + input)
  {
  }

  /** The origin is a fixed point of the Sine (1), Duffing (8), Chua (9) and Lorenz (10)
      updates: with all registers at zero and no input, every output is zero and the registers
      stay there. (The Van der Pol case 7 is not: its second register moves by T.) */
  lemma OriginIsFixed(s: OscState, out: seq<real>)
    requires Ok(s) && |out| == 3 && s.currentOscillatorType in {1, 8, 9, 10}
    requires s.delay1 == 0.0 && s.delay2 == 0.0 && s.delay3 == 0.0
    ensures GetNextSample(s, out, 0.0).0 == s
    ensures GetNextSample(s, out, 0.0).1[0] == 0.0 && GetNextSample(s, out, 0.0).1[1] == 0.0
  {
  }

  /** The phase-counter waveforms read the counter only through its phase in the period and
      in the half period: two states that differ at most in the counter and agree on those
      phases produce the same outputs and the same new state apart from the counter. */
  lemma PhaseOnly(s: OscState, t: OscState, out: seq<real>, input: real)
    requires Ok(s) && Ok(t) && |out| == 3 && 2 <= s.currentOscillatorType <= 6
    requires t == s.(oscCounter := t.oscCounter)
    requires Fmod(t.oscCounter + 1.0, s.oscParam2) == Fmod(s.oscCounter + 1.0, s.oscParam2)
    requires Fmod(t.oscCounter + 1.0, s.oscParam2 / 2.0) == Fmod(s.oscCounter + 1.0, s.oscParam2 / 2.0)
    ensures GetNextSample(t, out, input).1 == GetNextSample(s, out, input).1
    ensures GetNextSample(t, out, input).0 == GetNextSample(s, out, input).0.(oscCounter := t.oscCounter + 1.0)
  {
  }

  /** The state with the counter moved forward by k whole periods. */
  function ShiftedByPeriods(s: OscState, k: nat): (r: OscState)
    requires Ok(s)
    ensures Ok(r) && r == s.(oscCounter := r.oscCounter)
    ensures Fmod(r.oscCounter + 1.0, s.oscParam2) == Fmod(s.oscCounter + 1.0, s.oscParam2)
    ensures Fmod(r.oscCounter + 1.0, s.oscParam2 / 2.0) == Fmod(s.oscCounter + 1.0, s.oscParam2 / 2.0)
  {
    var m := s.oscCounter + k as real * s.oscParam2;
    PhaseShift(s.oscCounter, s.oscParam2, k, m);
    s.(oscCounter := m)
  }

  /** Moving the counter by k whole periods changes neither the output nor anything but the
      counter. */
  lemma PhaseWaveformsPeriodic(s: OscState, out: seq<real>, input: real, k: nat)
    requires Ok(s) && |out| == 3 && 2 <= s.currentOscillatorType <= 6
    ensures var shifted := ShiftedByPeriods(s, k);
            && GetNextSample(shifted, out, input).1 == GetNextSample(s, out, input).1
            && GetNextSample(shifted, out, input).0
               == GetNextSample(s, out, input).0.(oscCounter := shifted.oscCounter + 1.0)
  {
    PhaseOnly(s, ShiftedByPeriods(s, k), out, input);
  }

  /** Whole periods shift neither the phase of the next sample in the period nor its phase in
      the half period. */
  lemma PhaseShift(n: real, P: real, k: nat, m: real)
    requires n >= 0.0 && P > 0.0 && m == n + k as real * P
    ensures m >= 0.0
    ensures Fmod(m + 1.0, P) == Fmod(n + 1.0, P)
    ensures Fmod(m + 1.0, P / 2.0) == Fmod(n + 1.0, P / 2.0)
  {
    MulSign(k as real, P);
    var c := n + 1.0;
    assert m + 1.0 == c + k as real * P;
    FmodShift(c, P, k);
    var h := P / 2.0;
    var j: nat := 2 * k;
    assert j as real == 2.0 * k as real;
    assert c + j as real * h == c + k as real * P;
    FmodShift(c, h, j);
  }

  /** AASaw's two-stage reset: a sample that lands on the first sample of a period outputs
      the input itself; if the next sample is not again on a period start, it outputs one
      below the input. */
  lemma AASawTwoStageReset(s: OscState, out: seq<real>, input: real)
    requires Ok(s) && |out| == 3 && s.currentOscillatorType == AASaw
    requires Fmod(s.oscCounter + 1.0, s.oscParam2) < 1.0
    requires Fmod(s.oscCounter + 2.0, s.oscParam2) >= 1.0
    ensures var first := GetNextSample(s, out, input);
            first.1[0] == input
            && GetNextSample(first.0, first.1, input).1[0] == -1.0 + input
  {
    var first := GetNextSample(s, out, input);
    assert first.0.oscCounter + 1.0 == s.oscCounter + 2.0;
  }
}

/** The Oscillators class of Source/Oscillators.h and Source/Oscillators.cpp: a generator whose
    members update its registers, phase counter and trigger flags in place. Every mutator is
    proved to perform exactly the transition of the same name in OscillatorSpec, so the
    properties proved there hold of the object. */
module OscillatorBank {
  import opened CMath
  import opened OscillatorSpec

  class Oscillators {
    var delay1: real
    var delay2: real
    var delay3: real
    var oscCounter: real
    var currentOscillatorType: int
    var oscParam1: real
    var oscParam2: real
    var oscParam3: real
    var oscFreq: real
    var sampleRate: real
    var sampleTime: real
    var duffing1: real
    var delta: int
    var delta2: int

    /** The fields as a value. */
    ghost function State(): OscState
      reads this
    {
      OscState(delay1, delay2, delay3, oscCounter, currentOscillatorType,
               oscParam1, oscParam2, oscParam3, oscFreq, sampleRate, sampleTime,
               duffing1, delta, delta2)
    }

    /** The object invariant: the snapshot satisfies Ok. */
    ghost predicate Valid()
      reads this
    {
      Ok(State())
    }

    /** The constructor's initializer list plus the in-class initializers; the trigger flags
        are left uninitialized by the source and keep whatever value they start with. */
    constructor()
      ensures Valid()
      ensures State() == Initial(delta, delta2)
    {
      delay1, delay2, delay3 := 0.1, 0.1, 0.1;
      currentOscillatorType := 1;
      oscParam1, oscParam2, oscParam3 := 5.0, 0.1, 0.2;
      oscFreq := 440.0;
      sampleRate := 48000.0;
      sampleTime := 1.0 / 48000.0;
      oscCounter := 0.0;
      duffing1 := -1.0;
    }

    /** getNextSample: one step of the selected generator, writing its outputs into
        `outSamples` and its registers, counter and flags into the object. */
    method GetNextSample(outSamples: array<real>, input: real)
      requires Valid() && outSamples.Length == 3
      modifies this, outSamples
      ensures Valid()
      ensures (State(), outSamples[..])
              == OscillatorSpec.GetNextSample(old(State()), old(outSamples[..]), input)
    {
      var t := currentOscillatorType;
      if t == 1 {
        SineStep(outSamples, input);
      } else if 2 <= t <= 6 {
        oscCounter := oscCounter + 1.0;
        PhaseStep(t, outSamples, input);
      } else if t == 7 {
        VanderpolStep(outSamples, input);
      } else if t == 8 {
        DuffingStep(outSamples, input);
      } else if t == 9 || t == 10 {
        if t == 9 {
          ChuaStep(outSamples, input);
          // no break: control continues into the Lorenz case
        }
        LorenzStep(outSamples, input);
      }
    }

    /** Case 1. */
    method SineStep(outSamples: array<real>, input: real)
      requires outSamples.Length == 3
      modifies this, outSamples
      ensures (State(), outSamples[..]) == SineUpdate(old(State()), old(outSamples[..]), input)
    {
      ghost var s0 := State();
      var t1 := delay1 + (oscFreq * oscFreq) * sampleTime * delay2;
      var t2 := delay2 - sampleTime * t1 + input;
      outSamples[0] := t1;
      outSamples[1] := t2;
      delay1 := outSamples[0];
      delay2 := outSamples[1];
      assert outSamples[..] == old(outSamples[..])[0 := t1][1 := t2];
      assert SineUpdate(s0, old(outSamples[..]), input).0 == State();
    }

    /** Cases 2 to 6, after the counter has been advanced: the output is computed from the
        phase of the new counter value. */
    method PhaseStep(t: int, outSamples: array<real>, input: real)
      requires 2 <= t <= 6 && outSamples.Length == 3
      requires oscParam2 > 0.0 && oscCounter >= 1.0
      modifies this, outSamples
      ensures var before := old(State()).(oscCounter := old(oscCounter) - 1.0);
              Ok(before) ==>
              (State(), outSamples[..])
              == (if t == 2 then TriangleUpdate(before, old(outSamples[..]), input)
                  else if t == 3 then SquareUpdate(before, old(outSamples[..]), input)
                  else if t == 4 then SawUpdate(before, old(outSamples[..]), input)
                  else if t == 5 then AASquareUpdate(before, old(outSamples[..]), input)
                  else AASawUpdate(before, old(outSamples[..]), input))
    {
      if t == 2 {
        var t3 := Fmod(oscCounter, oscParam2);
        outSamples[0] := if t3 > oscParam2 / 2.0 then 4.0 * (t3 / oscParam2) - 3.0 + input
                         else -4.0 * (t3 / oscParam2) + 1.0 + input;
      } else if t == 3 {
        var t4 := Fmod(oscCounter, oscParam2);
        outSamples[0] := if t4 > oscParam2 / 2.0 then 1.0 + input else -1.0 + input;
      } else if t == 4 {
        var t5 := Fmod(oscCounter, oscParam2);
        outSamples[0] := SawRamp(t5, oscParam2) + input;
      } else if t == 5 {
        var t4 := TruncateToInt(Fmod(oscCounter, oscParam2 / 2.0));
        var t5 := Fmod(oscCounter, oscParam2);
        var sign := if t5 > oscParam2 / 2.0 then 1 else -1;
        delta := if t4 != 0 then 1 else 0;
        outSamples[0] := (sign * delta) as real;
      } else {
        var t4 := TruncateToInt(Fmod(oscCounter, oscParam2));
        var t5 := Fmod(oscCounter, oscParam2);
        delta := if t4 != 0 then 1 else 0;
        if delta == 0 {
          outSamples[0] := 0.0 + input;
          delta2 := 1;
        } else if delta2 != 0 {
          outSamples[0] := -1.0 + input;
          delta2 := 0;
        } else {
          outSamples[0] := SawRamp(t5, oscParam2) + input;
        }
      }
    }

    /** Case 7. */
    method VanderpolStep(outSamples: array<real>, input: real)
      requires outSamples.Length == 3
      modifies this, outSamples
      ensures (State(), outSamples[..]) == VanderpolUpdate(old(State()), old(outSamples[..]), input)
    {
      ghost var s0 := State();
      var v1 := delay1 + oscFreq * oscFreq * sampleTime * delay2;
      var v2 := VanderpolY(delay2, v1, sampleTime, input);
      outSamples[0] := v1;
      outSamples[1] := v2;
      delay1 := outSamples[0];
      delay2 := outSamples[1];
      assert outSamples[..] == old(outSamples[..])[0 := v1][1 := v2];
      assert VanderpolUpdate(s0, old(outSamples[..]), input).0 == State();
    }

    /** Case 8. */
    method DuffingStep(outSamples: array<real>, input: real)
      requires outSamples.Length == 3
      modifies this, outSamples
      ensures (State(), outSamples[..]) == DuffingUpdate(old(State()), old(outSamples[..]), input)
    {
      ghost var s0 := State();
      outSamples[0] := delay1 + sampleTime * delay2 + input;
      outSamples[1] := delay2 + sampleTime * (duffing3 * delay2 - duffing1 * delay1 - duffing2 * delay1 * delay1 * delay1);
      delay1 := outSamples[0];
      delay2 := outSamples[1];
      assert outSamples[..] == old(outSamples[..])[0 := delay1][1 := delay2];
      assert DuffingUpdate(s0, old(outSamples[..]), input).0 == State();
    }

    /** Case 9 up to its missing break. */
    method ChuaStep(outSamples: array<real>, input: real)
      requires outSamples.Length == 3
      modifies this, outSamples
      ensures (State(), outSamples[..]) == ChuaUpdate(old(State()), old(outSamples[..]), input)
    {
      ghost var s0 := State();
      outSamples[0] := delay1 + sampleTime * chuaParam1 * (delay2 - delay1 - ChuaNL(delay1)) + input;
      outSamples[1] := ChuaY(delay1, delay2, delay3, sampleTime);
      outSamples[2] := delay3 - sampleTime * chuaParam2 * delay2;
      delay1 := outSamples[0];
      delay2 := outSamples[1];
      delay3 := outSamples[2];
      assert outSamples[..] == [outSamples[0], outSamples[1], outSamples[2]];
      assert ChuaUpdate(s0, old(outSamples[..]), input).0 == State();
    }

    /** Case 10. */
    method LorenzStep(outSamples: array<real>, input: real)
      requires outSamples.Length == 3
      modifies this, outSamples
      ensures (State(), outSamples[..]) == LorenzUpdate(old(State()), old(outSamples[..]), input)
    {
      ghost var s0 := State();
      outSamples[0] := LorenzX(delay1, delay2, sampleTime, input);
      outSamples[1] := LorenzY(delay1, delay2, delay3, sampleTime);
      outSamples[2] := LorenzZ(delay1, delay2, delay3, sampleTime);
      delay1 := outSamples[0];
      delay2 := outSamples[1];
      delay3 := outSamples[2];
      assert outSamples[..] == [outSamples[0], outSamples[1], outSamples[2]];
      assert LorenzUpdate(s0, old(outSamples[..]), input).0 == State();
    }

    /** initializeChaos. */
    method InitializeChaos()
      modifies this
      ensures State() == OscillatorSpec.InitializeChaos(old(State()))
    {
      delay1 := 0.9;
      delay2 := -0.4;
      delay3 := -0.6;
    }

    /** reset. */
    method Reset()
      modifies this
      ensures State() == OscillatorSpec.Reset(old(State()))
    {
      delay1 := 0.1;
      delay2 := 0.1;
      delay3 := 0.1;
      oscCounter := 0.0;
    }

    /** resetICs: the three registers take the first three entries of `ICs`. */
    method ResetICs(ICs: array<real>)
      requires ICs.Length >= 3
      modifies this
      ensures State() == OscillatorSpec.ResetICs(old(State()), ICs[..])
    {
      delay1 := ICs[0];
      delay2 := ICs[1];
      delay3 := ICs[2];
    }

    /** setSampleRate. */
    method SetSampleRate(SR: real)
      requires SR > 0.0
      modifies this
      ensures State() == OscillatorSpec.SetSampleRate(old(State()), SR)
    {
      sampleRate := SR;
      sampleTime := Quotient(1.0, sampleRate);
    }

    /** getSampleRate. */
    function GetSampleRate(): (r: real)
      reads this
      ensures r == OscillatorSpec.GetSampleRate(State())
    {
      sampleRate
    }

    /** setFrequency. */
    method SetFrequency(freq: real)
      requires Valid() && freq > 0.0
      modifies this
      ensures State() == OscillatorSpec.SetFrequency(old(State()), freq)
    {
      oscFreq := TAU * freq;
      oscParam1 := oscFreq / sampleRate;
      oscParam2 := 1.0 / oscParam1 * TAU;
      duffing1 := -1.0 - 10.0 * oscFreq;
    }

    /** getFrequency. */
    function GetFrequency(): (r: real)
      reads this
      ensures r == OscillatorSpec.GetFrequency(State())
    {
      oscFreq / TAU
    }

    /** setType: stores the tag, seeds the chaotic systems for Lorenz and Chua, then resets. */
    method SetType(T: int)
      modifies this
      ensures State() == OscillatorSpec.SetType(old(State()), T)
    {
      currentOscillatorType := T;
      if T == Lorenz || T == Chua {
        InitializeChaos();
      }
      Reset();
    }

    /** getType. */
    function GetType(): (r: int)
      reads this
      ensures r == OscillatorSpec.GetType(State())
    {
      currentOscillatorType
    }
  }
}

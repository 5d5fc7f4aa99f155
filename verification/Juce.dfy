/** The pieces of the JUCE framework the phaser calls: IIRCoefficients, IIRFilter, and
    LinearSmoothedValue, plus the C library's `cos`. Their numerical insides are not part of this
    model: the filter recurrence, the smoother's ramp and the cosine are fields of a `Library`
    record, so every result proved about the phaser holds for whatever functions fill them. The
    only thing required of them is `Glides`, a contract on the smoother stated over the value
    it returns and its target. */
module Juce {

  /** double_Pi. */
  const DoublePi: real := 3.1415926535897932384626433832795

  /** The six raw coefficients of a second-order section, in the constructor's argument order.
      JUCE divides every coefficient by a0 when it stores them; the phaser always passes
      a0 = 1, for which that division changes nothing. */
  datatype IIRCoefficients = IIRCoefficients(b0: real, b1: real, b2: real, a0: real, a1: real, a2: real)

  /** The two state variables of JUCE's transposed direct form II. */
  datatype FilterMemory = FilterMemory(v1: real, v2: real)

  /** An IIRFilter: the coefficients it was last given and its state variables. */
  datatype IIRFilter = IIRFilter(coefficients: IIRCoefficients, memory: FilterMemory)

  /** A LinearSmoothedValue as the phaser sees it: the value it last returned and the value it
      ramps toward. JUCE's ramp bookkeeping (samples left, increment per sample) is internal to
      the library and is not part of this record. */
  datatype LinearSmoothedValue = LinearSmoothedValue(currentValue: real, target: real)

  /** The framework functions the phaser depends on, left uninterpreted. */
  datatype Library = Library(
    cos: real -> real,
    processSingleSampleRaw: (IIRCoefficients, FilterMemory, real) -> (real, FilterMemory),
    getNextValue: LinearSmoothedValue -> LinearSmoothedValue,
    setValue: (LinearSmoothedValue, real) -> LinearSmoothedValue)

  /** x lies on the closed segment between a and b. */
  predicate Between(a: real, x: real, b: real)
  {
    a <= x <= b || b <= x <= a
  }

  /** A step from a toward b that lands on x: x is between them, and x is a itself only
      when a is already b. */
  predicate Approaches(a: real, x: real, b: real)
  {
    Between(a, x, b) && (x == a ==> a == b)
  }

  /** The contract required of the smoother: a step keeps the target and lands between the
      current value and the target, moving unless it is already there (so a smoother at its
      target stays there); setting a value makes it the target, and the current value can only
      move toward it (it jumps to it when no ramp length has been configured). The two facts
      about where the new value lands are instantiated only where a proof names them. */
  ghost predicate Glides(lib: Library)
  {
    && (forall sm: LinearSmoothedValue :: lib.getNextValue(sm).target == sm.target)
    && (forall sm: LinearSmoothedValue :: sm.currentValue == sm.target ==> lib.getNextValue(sm).currentValue == sm.target)
    && (forall sm: LinearSmoothedValue {:trigger Approaches(sm.currentValue, lib.getNextValue(sm).currentValue, sm.target)} ::
          Approaches(sm.currentValue, lib.getNextValue(sm).currentValue, sm.target))
    && (forall sm: LinearSmoothedValue, v: real :: lib.setValue(sm, v).target == v)
    && (forall sm: LinearSmoothedValue, v: real {:trigger Between(sm.currentValue, lib.setValue(sm, v).currentValue, v)} ::
          Between(sm.currentValue, lib.setValue(sm, v).currentValue, v))
  }

  /** LinearSmoothedValue::getNextValue: steps the smoother; the value returned is the new
      current value. */
  function GetNextValue(lib: Library, sm: LinearSmoothedValue): (r: LinearSmoothedValue)
    requires Glides(lib)
    ensures r.target == sm.target
    ensures sm.currentValue == sm.target ==> r.currentValue == sm.target
  {
    lib.getNextValue(sm)
  }

  /** LinearSmoothedValue::setValue. */
  function SetValue(lib: Library, sm: LinearSmoothedValue, v: real): (r: LinearSmoothedValue)
    requires Glides(lib)
    ensures r.target == v
  {
    lib.setValue(sm, v)
  }

  /** A step never overshoots, and it moves unless the smoother is at its target. */
  lemma StepApproaches(lib: Library, sm: LinearSmoothedValue)
    requires Glides(lib)
    ensures Approaches(sm.currentValue, GetNextValue(lib, sm).currentValue, sm.target)
  {
    assert Approaches(sm.currentValue, lib.getNextValue(sm).currentValue, sm.target);
  }

  /** Setting a value never overshoots it. */
  lemma SetBetween(lib: Library, sm: LinearSmoothedValue, v: real)
    requires Glides(lib)
    ensures Between(sm.currentValue, SetValue(lib, sm, v).currentValue, v)
  {
    assert Between(sm.currentValue, lib.setValue(sm, v).currentValue, v);
  }

  /** A smoother that starts at or above zero and heads for a positive target returns a
      positive value. */
  lemma NextValuePositive(lib: Library, sm: LinearSmoothedValue)
    requires Glides(lib) && sm.currentValue >= 0.0 && sm.target > 0.0
    ensures GetNextValue(lib, sm).currentValue > 0.0
  {
    StepApproaches(lib, sm);
  }

  /** A smoother at or above zero that is told a non-negative value stays at or above zero. */
  lemma SetValueNonNegative(lib: Library, sm: LinearSmoothedValue, v: real)
    requires Glides(lib) && sm.currentValue >= 0.0 && v >= 0.0
    ensures SetValue(lib, sm, v).currentValue >= 0.0
  {
    SetBetween(lib, sm, v);
  }

  /** A smoother resting at a value and told to stay there returns that value forever. */
  lemma SmootherAtRest(lib: Library, sm: LinearSmoothedValue, v: real)
    requires Glides(lib) && sm.currentValue == v
    ensures SetValue(lib, sm, v).currentValue == v
    ensures GetNextValue(lib, SetValue(lib, sm, v)).currentValue == v
  {
    SetBetween(lib, sm, v);
  }

  /** IIRFilter::setCoefficients: replaces the coefficients and keeps the state variables. */
  function SetCoefficients(f: IIRFilter, c: IIRCoefficients): (r: IIRFilter)
    ensures r.coefficients == c && r.memory == f.memory
  {
    f.(coefficients := c)
  }

  /** IIRFilter::processSingleSampleRaw: filters one sample with the stored coefficients,
      updating only the state variables. */
  function ProcessSingleSampleRaw(lib: Library, f: IIRFilter, x: real): (r: (real, IIRFilter))
    ensures r.1.coefficients == f.coefficients
    ensures (r.0, r.1.memory) == lib.processSingleSampleRaw(f.coefficients, f.memory, x)
  {
    var (y, m) := lib.processSingleSampleRaw(f.coefficients, f.memory, x);
    (y, f.(memory := m))
  }
}

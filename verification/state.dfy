/** The simplified state income tax: no result without a selected state, zero
    for states without an income tax, and otherwise the state's deduction
    taken from the federal AGI and either a flat rate or the progressive
    walk on what remains. */
module StateTax {
  import opened Money
  import opened Brackets
  import opened RateTable
  import opened Wrappers

  datatype StateResult =
    | NoTaxState(stateName: string)
    | TaxedState(stateName: string, totalTax: real, taxableIncome: real)
  {
    /** A state without income tax reports a total of 0. */
    function TotalTax(): real
    {
      match this
      case NoTaxState(_) => 0.0
      case TaxedState(_, t, _) => t
    }
  }

  /** State taxable income: AGI less the state deduction, never below zero. */
  function StateTaxableIncome(agi: real, s: StateSchedule): real
  {
    Max(0.0, agi - s.deduction)
  }

  /** Tax before the final clamp: the flat product for flat-rate states, the
      progressive walk for the others. */
  function StateTaxOn(taxable: real, s: StateSchedule): real
    requires s.Valid()
  {
    if s.isFlat then taxable * s.brackets[0].rate else BracketTax(taxable, s.brackets)
  }

  /** The result for a state that has a row in the table. */
  function StateResultFor(agi: real, fs: FilingStatus, name: string, entry: StateEntry): StateResult
    requires entry.Valid()
  {
    match entry
    case NoIncomeTax => NoTaxState(name)
    case Levied(_, _, _) =>
      var s := entry.For(fs);
      var taxable := StateTaxableIncome(agi, s);
      TaxedState(name, Max(0.0, StateTaxOn(taxable, s)), taxable)
  }

  /** The state half of the calculation; `NoState` has no row and so no
      result. */
  function ComputeState(agi: real, fs: FilingStatus, key: StateKey): Option<StateResult>
  {
    match StateInfo(key)
    case None => None
    case Some(entry) =>
      StateTableValid(key);
      Some(StateResultFor(agi, fs, StateName(key), entry))
  }

  /** A flat rate charged on a non-negative amount is the progressive walk
      over a single unbounded bracket at that rate. */
  lemma FlatIsSingleBracketWalk(taxable: real, rate: real)
    requires taxable >= 0.0
    ensures taxable * rate == BracketTax(taxable, [Bracket(rate, Unbounded)])
  {
    var bs := [Bracket(rate, Unbounded)];
    if taxable > 0.0 {
      assert bs[1..] == [];
      assert BracketTax(taxable, bs) == taxable * rate + TaxFrom(0.0, 0.0, []);
    }
  }

  /** There is a state result exactly when a state is selected. */
  lemma StateResultIffSelected(agi: real, fs: FilingStatus, key: StateKey)
    ensures ComputeState(agi, fs, key).None? <==> key == NoState
  {
  }

  /** Florida and Texas, and only they, report no income tax, with a total
      of 0 whatever the income. */
  lemma NoTaxStatesOweNothing(agi: real, fs: FilingStatus, key: StateKey)
    ensures (ComputeState(agi, fs, key).Some? && ComputeState(agi, fs, key).value.NoTaxState?)
      <==> (key == Florida || key == Texas)
    ensures key == Florida || key == Texas ==> ComputeState(agi, fs, key).value.TotalTax() == 0.0
  {
    NoIncomeTaxStates(key);
    StateRowIffSelected(key);
    if key != NoState {
      StateTableValid(key);
      var entry := StateInfo(key).value;
      assert ComputeState(agi, fs, key) == Some(StateResultFor(agi, fs, StateName(key), entry));
      assert StateResultFor(agi, fs, StateName(key), entry).NoTaxState? <==> entry.NoIncomeTax?;
    }
  }

  /** In a state that levies income tax, taxable income is AGI less the state
      deduction clamped at zero, and the total is the progressive walk over
      the state's brackets -- for a flat-rate schedule too, since it is one
      unbounded bracket -- which is never negative, so the final clamp never
      changes it. */
  lemma {:induction false} LeviedStateTax(agi: real, fs: FilingStatus, name: string, entry: StateEntry)
    requires entry.Levied? && entry.Valid()
    ensures var s := entry.For(fs);
      var r := StateResultFor(agi, fs, name, entry);
      && r.TaxedState?
      && r.taxableIncome == Max(0.0, agi - s.deduction)
      && r.totalTax == BracketTax(r.taxableIncome, s.brackets)
      && r.totalTax >= 0.0
  {
    var s := entry.For(fs);
    var taxable := StateTaxableIncome(agi, s);
    if s.isFlat {
      assert s.brackets == [Bracket(s.brackets[0].rate, Unbounded)];
      FlatIsSingleBracketWalk(taxable, s.brackets[0].rate);
    }
    TaxBounds(taxable, 0.0, s.brackets);
  }

  /** A higher AGI never lowers the tax of a state with a row. */
  lemma {:induction false} StateResultMonotone(a: real, b: real, fs: FilingStatus, name: string, entry: StateEntry)
    requires a <= b
    requires entry.Valid()
    ensures StateResultFor(a, fs, name, entry).TotalTax() <= StateResultFor(b, fs, name, entry).TotalTax()
  {
    if entry.Levied? {
      var s := entry.For(fs);
      LeviedStateTax(a, fs, name, entry);
      LeviedStateTax(b, fs, name, entry);
      TaxMonotone(StateTaxableIncome(a, s), StateTaxableIncome(b, s), 0.0, s.brackets);
    }
  }

  /** A higher AGI never lowers the state tax, for every selectable state. */
  lemma StateTaxMonotone(a: real, b: real, fs: FilingStatus, key: StateKey)
    requires a <= b
    requires key != NoState
    ensures ComputeState(a, fs, key).Some? && ComputeState(b, fs, key).Some?
    ensures ComputeState(a, fs, key).value.TotalTax() <= ComputeState(b, fs, key).value.TotalTax()
  {
    StateRowIffSelected(key);
    StateTableValid(key);
    var entry := StateInfo(key).value;
    assert ComputeState(a, fs, key) == Some(StateResultFor(a, fs, StateName(key), entry));
    assert ComputeState(b, fs, key) == Some(StateResultFor(b, fs, StateName(key), entry));
    StateResultMonotone(a, b, fs, StateName(key), entry);
  }

  /** For each state of the table that levies income tax, the result is the
      walk over that state's brackets on AGI less its deduction. */
  lemma StateTaxForKey(agi: real, fs: FilingStatus, key: StateKey)
    requires key != NoState && key != Florida && key != Texas
    ensures var r := ComputeState(agi, fs, key);
      var s := StateInfo(key).value.For(fs);
      && r.Some? && r.value.TaxedState?
      && r.value.stateName == StateName(key)
      && r.value.taxableIncome == Max(0.0, agi - s.deduction)
      && r.value.totalTax == BracketTax(r.value.taxableIncome, s.brackets)
      && r.value.totalTax >= 0.0
  {
    StateRowIffSelected(key);
    NoIncomeTaxStates(key);
    StateTableValid(key);
    var entry := StateInfo(key).value;
    assert ComputeState(agi, fs, key) == Some(StateResultFor(agi, fs, StateName(key), entry));
    LeviedStateTax(agi, fs, StateName(key), entry);
  }
}

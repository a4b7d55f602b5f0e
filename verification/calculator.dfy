/** The whole calculation: the federal result and, when a state is selected,
    the state result computed from the federal AGI. */
module Calculator {
  import opened Money
  import opened Brackets
  import opened Stacked
  import opened RateTable
  import opened Wrappers
  import opened Federal
  import opened StateTax

  datatype CalculationResult = CalculationResult(federal: FederalResult, state: Option<StateResult>)

  /** The calculation as pure functions of the inputs. */
  function Estimate(inc: Income, fs: FilingStatus, key: StateKey): CalculationResult
  {
    CalculationResult(FederalFor(inc, fs), ComputeState(Agi(inc), fs, key))
  }

  /** The federal half step by step as the calculator runs it, with both
      bracket loops; it agrees with `ComputeFederal`. */
  method CalculateFederal(inc: Income, info: FederalSchedule) returns (federal: FederalResult)
    ensures federal == ComputeFederal(inc, info)
  {
    var ordinaryIncome := OrdinaryIncome(inc);
    var preferentialIncome := PreferentialIncome(inc);
    var totalAgi := ordinaryIncome + preferentialIncome;
    var totalDeductions := info.deduction + inc.charity;
    var taxableIncome := Max(0.0, totalAgi - totalDeductions);

    var taxableOrdinaryIncome := Max(0.0, taxableIncome - preferentialIncome);
    var regularIncomeTax := ComputeBracketTax(taxableOrdinaryIncome, info.brackets);
    var capitalGainsTax := ComputeCapitalGainsTax(taxableOrdinaryIncome, preferentialIncome,
                                                  info.capitalGainsBrackets);
    var incomeTaxBeforeCredits := regularIncomeTax + capitalGainsTax;

    var medicareTax := MedicareTax(inc.wages, info.medicareThreshold);
    var niitBase := NiitBase(NetInvestmentIncome(inc), totalAgi, info.niitThreshold);
    var niit := niitBase * 0.038;

    var totalFederalTax := incomeTaxBeforeCredits + medicareTax + niit - inc.credits;
    var totalPayments := inc.withheld + inc.estimatedPayments;
    federal := FederalResult(totalFederalTax, totalAgi, taxableIncome, incomeTaxBeforeCredits,
                             medicareTax, niit, totalPayments, totalFederalTax - totalPayments);
  }

  /** The state half step by step for a state with a row in the table; it
      agrees with `StateResultFor`. */
  method CalculateState(totalAgi: real, fs: FilingStatus, stateName: string, entry: StateEntry)
    returns (state: StateResult)
    requires entry.Valid()
    ensures state == StateResultFor(totalAgi, fs, stateName, entry)
  {
    if entry.NoIncomeTax? {
      state := NoTaxState(stateName);
    } else {
      var stateStatusInfo := entry.For(fs);
      var stateTaxableIncome := Max(0.0, totalAgi - stateStatusInfo.deduction);
      var stateTax;
      if stateStatusInfo.isFlat {
        stateTax := stateTaxableIncome * stateStatusInfo.brackets[0].rate;
      } else {
        stateTax := ComputeBracketTax(stateTaxableIncome, stateStatusInfo.brackets);
      }
      state := TaxedState(stateName, Max(0.0, stateTax), stateTaxableIncome);
    }
  }

  /** The whole calculation as the calculator runs it: it agrees with
      `Estimate`, reports a state exactly when one is selected, never charges
      a negative income tax, and nets payments against the total. */
  method CalculateTaxes(inc: Income, fs: FilingStatus, key: StateKey) returns (r: CalculationResult)
    ensures r == Estimate(inc, fs, key)
    ensures r.state.None? <==> key == NoState
    ensures r.federal.balanceDueOrRefund == r.federal.totalTax - r.federal.totalPayments
    ensures r.federal.incomeTaxBeforeCredits >= 0.0
  {
    var federal := CalculateFederal(inc, FederalInfo(fs));
    var state: Option<StateResult> := None;
    var stateInfo := StateInfo(key);
    if stateInfo.Some? {
      StateTableValid(key);
      var s := CalculateState(federal.agi, fs, StateName(key), stateInfo.value);
      state := Some(s);
    }
    r := CalculationResult(federal, state);
    StateResultIffSelected(Agi(inc), fs, key);
    FederalComponentsNonNegative(inc, FederalInfo(fs));
  }
}

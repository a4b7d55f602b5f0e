/** Worked cases of the calculation with concrete 2025 figures. */
module Scenarios {
  import opened Money
  import opened Brackets
  import opened Stacked
  import opened RateTable
  import opened Federal

  /** A single filer with 40000 of taxable ordinary income and 15000 of
      preferential income: 9230 fills the 0% tier up to 49230, the other 5770
      falls in the 15% tier, for 865.50 of tax. */
  lemma StackingAcrossTiers()
    ensures StackedSlices(40000.0, 15000.0, 15000.0, FederalInfo(Single).capitalGainsBrackets)
      == [9230.0, 5770.0]
    ensures CapitalGainsTax(40000.0, 15000.0, FederalInfo(Single).capitalGainsBrackets) == 865.5
  {
  }

  /** A single filer whose only income is 600000 of long-term gains: 585000
      is taxable, yet the capital-gains walk charges all 600000, so 58100
      rather than 43100 lands in the 20% tier. */
  lemma PreferentialWalkIgnoresDeduction(inc: Income)
    requires NoIncome(inc.(longTermGains := 0.0))
    requires inc.longTermGains == 600000.0 && inc.charity == 0.0
    ensures TaxableIncome(inc, FederalInfo(Single)) == 585000.0
    ensures TaxableOrdinaryIncome(inc, FederalInfo(Single)) == 0.0
    ensures StackedSlices(0.0, 600000.0, 600000.0, FederalInfo(Single).capitalGainsBrackets)
      == [49230.0, 492670.0, 58100.0]
    ensures PreferentialTax(inc, FederalInfo(Single)) == 85520.5
  {
  }

  /** With a capital loss (negative preferential income), taxable ordinary
      income exceeds taxable income. */
  lemma NegativePreferentialLiftsOrdinary(inc: Income)
    requires NoIncome(inc.(wages := 0.0, longTermGains := 0.0))
    requires inc.wages == 50000.0 && inc.longTermGains == -5000.0 && inc.charity == 0.0
    ensures TaxableIncome(inc, FederalInfo(Single)) == 30000.0
    ensures TaxableOrdinaryIncome(inc, FederalInfo(Single)) == 35000.0
  {
  }

  /** A single filer with 10000 of wages and a 3000 capital loss has nothing
      taxable, yet pays 300 of income tax on 3000 of taxable ordinary income;
      with the loss gone (more long-term gains) the tax falls to 0. */
  lemma ShrinkingLossLowersTax(inc: Income)
    requires NoIncome(inc.(wages := 0.0, longTermGains := 0.0))
    requires inc.wages == 10000.0 && inc.longTermGains == -3000.0 && inc.charity == 0.0
    ensures FederalFor(inc, Single).taxableIncome == 0.0
    ensures FederalFor(inc, Single).incomeTaxBeforeCredits == 300.0
    ensures FederalFor(inc.(longTermGains := 0.0), Single).incomeTaxBeforeCredits == 0.0
    ensures FederalFor(inc.(longTermGains := 0.0), Single).totalTax < FederalFor(inc, Single).totalTax
  {
  }

  /** On a list whose rate falls, more ordinary income underneath can lower
      the tax on the same preferential income: 50 stacked on 0 is charged
      20%, stacked on 100 it is charged 0%. */
  lemma FallingRatesLowerStackedTax()
    ensures CapitalGainsTax(0.0, 50.0, [B(0.2, 100.0), Top(0.0)]) == 10.0
    ensures CapitalGainsTax(100.0, 50.0, [B(0.2, 100.0), Top(0.0)]) == 0.0
  {
  }

  /** Additional Medicare tax for a single filer: 450 on 250000 of wages,
      nothing on 150000. */
  lemma MedicareAroundThreshold()
    ensures MedicareTax(250000.0, FederalInfo(Single).medicareThreshold) == 450.0
    ensures MedicareTax(150000.0, FederalInfo(Single).medicareThreshold) == 0.0
  {
  }

  /** 500000 of net investment income but AGI only 10000 over the single
      threshold: the base is capped at 10000 and the NIIT is 380. */
  lemma NiitCappedByAgiExcess()
    ensures NiitBase(500000.0, 210000.0, FederalInfo(Single).niitThreshold) == 10000.0
    ensures NiitBase(500000.0, 210000.0, FederalInfo(Single).niitThreshold) * 0.038 == 380.0
  {
  }

  /** 10000 of tax against 12000 withheld is a 2000 refund. */
  lemma OverwithholdingIsRefund(inc: Income, info: FederalSchedule)
    requires ComputeFederal(inc, info).totalTax == 10000.0
    requires inc.withheld == 12000.0 && inc.estimatedPayments == 0.0
    ensures ComputeFederal(inc, info).balanceDueOrRefund == -2000.0
  {
  }
}

/** The federal half of the calculation: income classification, the
    ordinary-income walk, the stacked capital-gains walk, the additional
    Medicare tax, the net investment income tax, and the totals. */
module Federal {
  import opened Money
  import opened Brackets
  import opened Stacked
  import opened RateTable

  /** The Schedule E worksheet. */
  datatype ScheduleE = ScheduleE(rentalIncome: real, rentalExpenses: real, passthroughIncome: real)

  /** The calculator's numeric inputs, already parsed (an absent field is 0).
      `netScheduleE` is the signed net saved from the Schedule E worksheet. */
  datatype Income = Income(
    wages: real,
    interest: real,
    ordinaryDividends: real,
    qualifiedDividends: real,
    shortTermGains: real,
    longTermGains: real,
    charity: real,
    credits: real,
    withheld: real,
    estimatedPayments: real,
    netScheduleE: real)

  datatype FederalResult = FederalResult(
    totalTax: real,
    agi: real,
    taxableIncome: real,
    incomeTaxBeforeCredits: real,
    medicareTax: real,
    niit: real,
    totalPayments: real,
    balanceDueOrRefund: real)

  /** Net Schedule E income: rents less expenses plus passthrough income;
      negative when the worksheet shows a loss. */
  function NetScheduleE(d: ScheduleE): (n: real)
    ensures n < 0.0 <==> d.rentalIncome + d.passthroughIncome < d.rentalExpenses
    ensures n + d.rentalExpenses == d.rentalIncome + d.passthroughIncome
  {
    d.rentalIncome - d.rentalExpenses + d.passthroughIncome
  }

  /** Ordinary income takes only a positive Schedule E net. */
  function OrdinaryIncome(inc: Income): real
  {
    inc.wages + inc.interest + inc.ordinaryDividends + inc.shortTermGains
      + (if inc.netScheduleE > 0.0 then inc.netScheduleE else 0.0)
  }

  function PreferentialIncome(inc: Income): real
  {
    inc.qualifiedDividends + inc.longTermGains
  }

  function Agi(inc: Income): real
  {
    OrdinaryIncome(inc) + PreferentialIncome(inc)
  }

  function TotalDeductions(inc: Income, info: FederalSchedule): real
  {
    info.deduction + inc.charity
  }

  /** Taxable income: AGI less deductions, never below zero. */
  function TaxableIncome(inc: Income, info: FederalSchedule): (t: real)
    ensures t >= 0.0
    ensures t >= Agi(inc) - TotalDeductions(inc, info)
    ensures t > 0.0 ==> t == Agi(inc) - TotalDeductions(inc, info)
  {
    Max(0.0, Agi(inc) - TotalDeductions(inc, info))
  }

  /** The part of taxable income that is ordinary: preferential income sits
      on top, so this is what is left below it, and together with the
      preferential income it covers all of taxable income.  It stays within
      taxable income as long as preferential income is not negative. */
  function TaxableOrdinaryIncome(inc: Income, info: FederalSchedule): (t: real)
    ensures 0.0 <= t
    ensures PreferentialIncome(inc) >= 0.0 ==> t <= TaxableIncome(inc, info)
    ensures t + PreferentialIncome(inc) >= TaxableIncome(inc, info)
  {
    Max(0.0, TaxableIncome(inc, info) - PreferentialIncome(inc))
  }

  function RegularIncomeTax(inc: Income, info: FederalSchedule): real
  {
    BracketTax(TaxableOrdinaryIncome(inc, info), info.brackets)
  }

  /** The stacked walk runs over the whole preferential income, not only the
      part of it that is taxable. */
  function PreferentialTax(inc: Income, info: FederalSchedule): real
  {
    CapitalGainsTax(TaxableOrdinaryIncome(inc, info), PreferentialIncome(inc),
                    info.capitalGainsBrackets)
  }

  /** Additional Medicare tax on wages above the threshold. */
  function MedicareTax(wages: real, threshold: real): (m: real)
    ensures wages <= threshold ==> m == 0.0
    ensures wages > threshold ==> m == 0.009 * (wages - threshold)
  {
    Max(0.0, wages - threshold) * 0.009
  }

  /** Net investment income keeps the Schedule E net with its sign. */
  function NetInvestmentIncome(inc: Income): real
  {
    inc.interest + inc.ordinaryDividends + inc.shortTermGains + inc.longTermGains
      + inc.netScheduleE
  }

  /** The NIIT base is the smaller of the (clamped) net investment income and
      the (clamped) excess of AGI over the threshold. */
  function NiitBase(nii: real, agi: real, threshold: real): (b: real)
    ensures 0.0 <= b
    ensures b <= Max(0.0, nii) && b <= Max(0.0, agi - threshold)
    ensures b == Max(0.0, nii) || b == Max(0.0, agi - threshold)
  {
    Min(Max(0.0, nii), Max(0.0, agi - threshold))
  }

  /** The federal calculation against one filing status's schedule. */
  function ComputeFederal(inc: Income, info: FederalSchedule): FederalResult
  {
    var agi := Agi(inc);
    var incomeTax := RegularIncomeTax(inc, info) + PreferentialTax(inc, info);
    var medicare := MedicareTax(inc.wages, info.medicareThreshold);
    var niit := NiitBase(NetInvestmentIncome(inc), agi, info.niitThreshold) * 0.038;
    var total := incomeTax + medicare + niit - inc.credits;
    var payments := inc.withheld + inc.estimatedPayments;
    FederalResult(total, agi, TaxableIncome(inc, info), incomeTax, medicare, niit,
                  payments, total - payments)
  }

  /** The federal calculation for a filing status, from the rate table. */
  function FederalFor(inc: Income, fs: FilingStatus): FederalResult
  {
    ComputeFederal(inc, FederalInfo(fs))
  }

  /** The income tax and both surtaxes are never negative, and neither is the
      taxable income; the income tax is at most the taxable ordinary income
      plus the preferential income it is charged on. */
  lemma {:induction false} FederalComponentsNonNegative(inc: Income, info: FederalSchedule)
    ensures var r := ComputeFederal(inc, info);
      && r.taxableIncome >= 0.0
      && r.incomeTaxBeforeCredits >= 0.0
      && r.incomeTaxBeforeCredits
           <= TaxableOrdinaryIncome(inc, info) + Max(0.0, PreferentialIncome(inc))
      && r.medicareTax >= 0.0
      && r.niit >= 0.0
  {
    var top := TaxableOrdinaryIncome(inc, info);
    var pref := PreferentialIncome(inc);
    var b := NiitBase(NetInvestmentIncome(inc), Agi(inc), info.niitThreshold);
    TaxBounds(top, 0.0, info.brackets);
    AscendingRatesWithin(0.0, info.capitalGainsBrackets);
    StackedTaxBounds(top, pref, pref, info.capitalGainsBrackets);
    ScaleMonotone(0.0, b, 0.038);
  }

  /** Credits are subtracted without a floor, and payments are netted against
      the total: a positive balance is owed, a negative one refunded. */
  lemma FederalTotals(inc: Income, info: FederalSchedule)
    ensures var r := ComputeFederal(inc, info);
      && r.agi == Agi(inc)
      && r.totalTax + inc.credits == r.incomeTaxBeforeCredits + r.medicareTax + r.niit
      && r.totalPayments == inc.withheld + inc.estimatedPayments
      && r.balanceDueOrRefund + r.totalPayments == r.totalTax
  {
  }

  /** No income of any kind (deductions, credits and payments may be
      anything). */
  predicate NoIncome(inc: Income)
  {
    inc.wages == 0.0 && inc.interest == 0.0 && inc.ordinaryDividends == 0.0
    && inc.qualifiedDividends == 0.0 && inc.shortTermGains == 0.0
    && inc.longTermGains == 0.0 && inc.netScheduleE == 0.0
  }

  /** With no income nothing is taxable and neither income tax nor surtax
      arises, so credits alone set the total, which goes negative: credits are
      not floored at zero. */
  lemma ZeroIncome(inc: Income, info: FederalSchedule)
    requires NoIncome(inc)
    requires info.Valid()
    requires info.deduction + inc.charity >= 0.0
    ensures var r := ComputeFederal(inc, info);
      && r.taxableIncome == 0.0 && r.incomeTaxBeforeCredits == 0.0
      && r.medicareTax == 0.0 && r.niit == 0.0
      && r.totalTax == -inc.credits
      && r.balanceDueOrRefund == -(inc.credits + inc.withheld + inc.estimatedPayments)
  {
  }

  /** A Schedule E net enters ordinary income (and so AGI) only when positive,
      but enters net investment income with its sign. */
  lemma ScheduleEAsymmetry(inc: Income)
    ensures var base := inc.(netScheduleE := 0.0);
      && OrdinaryIncome(inc) == OrdinaryIncome(base) + Max(0.0, inc.netScheduleE)
      && Agi(inc) == Agi(base) + Max(0.0, inc.netScheduleE)
      && NetInvestmentIncome(inc) == NetInvestmentIncome(base) + inc.netScheduleE
  {
  }

  /** A worksheet whose expenses exceed rents plus passthrough income saves a
      loss that leaves AGI as if the worksheet were empty, while reducing net
      investment income by the size of the loss. */
  lemma WorksheetLossReachesOnlyInvestmentIncome(inc: Income, d: ScheduleE)
    requires inc.netScheduleE == NetScheduleE(d)
    requires d.rentalExpenses > d.rentalIncome + d.passthroughIncome
    ensures Agi(inc) == Agi(inc.(netScheduleE := 0.0))
    ensures NetInvestmentIncome(inc)
      == NetInvestmentIncome(inc.(netScheduleE := 0.0))
         - (d.rentalExpenses - d.rentalIncome - d.passthroughIncome)
  {
  }

  /** A Schedule E loss changes neither AGI nor the income tax, and can only
      lower the net investment income tax. */
  lemma ScheduleELossOnlyLowersNiit(inc: Income, info: FederalSchedule)
    requires inc.netScheduleE < 0.0
    ensures var r := ComputeFederal(inc, info);
      var r0 := ComputeFederal(inc.(netScheduleE := 0.0), info);
      && r.agi == r0.agi
      && r.taxableIncome == r0.taxableIncome
      && r.incomeTaxBeforeCredits == r0.incomeTaxBeforeCredits
      && r.medicareTax == r0.medicareTax
      && r.niit <= r0.niit
  {
  }

  /** The preferential walk consumes the whole preferential income, even when
      deductions leave less than that taxable, and the preferential tax is
      those slices charged at their tiers' rates. */
  lemma CapitalGainsWalkTakesAllPreferential(inc: Income, info: FederalSchedule)
    requires PreferentialIncome(inc) > 0.0
    ensures var s := StackedSlices(TaxableOrdinaryIncome(inc, info), PreferentialIncome(inc),
                                   PreferentialIncome(inc), info.capitalGainsBrackets);
      && Sum(s) == PreferentialIncome(inc)
      && PreferentialTax(inc, info) == WeightedSum(s, info.capitalGainsBrackets)
  {
    var top := TaxableOrdinaryIncome(inc, info);
    var pref := PreferentialIncome(inc);
    WellFormedHasUnbounded(info.capitalGainsBrackets);
    StackedConsumesAll(top, pref, pref, info.capitalGainsBrackets);
    StackedTaxIsWeightedSlices(top, pref, pref, info.capitalGainsBrackets);
  }

  /** More wages never lower the tax on ordinary income. */
  lemma {:induction false} RegularTaxMonotoneInWages(inc: Income, info: FederalSchedule, more: real)
    requires more >= 0.0
    ensures RegularIncomeTax(inc, info) <= RegularIncomeTax(inc.(wages := inc.wages + more), info)
  {
    var inc' := inc.(wages := inc.wages + more);
    assert TaxableOrdinaryIncome(inc, info) <= TaxableOrdinaryIncome(inc', info);
    TaxMonotone(TaxableOrdinaryIncome(inc, info), TaxableOrdinaryIncome(inc', info), 0.0,
                info.brackets);
  }

  /** Every income component of `more` is at least that of `inc`, while
      charity and credits are the same. */
  predicate IncomeGrows(inc: Income, more: Income)
  {
    inc.wages <= more.wages && inc.interest <= more.interest
    && inc.ordinaryDividends <= more.ordinaryDividends
    && inc.qualifiedDividends <= more.qualifiedDividends
    && inc.shortTermGains <= more.shortTermGains
    && inc.longTermGains <= more.longTermGains
    && inc.netScheduleE <= more.netScheduleE
    && inc.charity == more.charity && inc.credits == more.credits
  }

  /** Without a net capital loss, preferential income sits entirely above
      the ordinary income, so the ordinary part of taxable income is ordinary
      income less deductions, floored at zero, whatever the preferential
      amount. */
  lemma TaxableOrdinaryWithoutLoss(inc: Income, info: FederalSchedule)
    requires PreferentialIncome(inc) >= 0.0
    ensures TaxableOrdinaryIncome(inc, info)
      == Max(0.0, OrdinaryIncome(inc) - TotalDeductions(inc, info))
  {
  }

  /** Growing income never lowers taxable ordinary income, unless a net
      capital loss shrinks. */
  lemma TaxableOrdinaryGrows(inc: Income, more: Income, info: FederalSchedule)
    requires IncomeGrows(inc, more)
    requires PreferentialIncome(inc) >= 0.0 || PreferentialIncome(more) == PreferentialIncome(inc)
    ensures TaxableOrdinaryIncome(inc, info) <= TaxableOrdinaryIncome(more, info)
  {
    assert OrdinaryIncome(inc) <= OrdinaryIncome(more);
    if PreferentialIncome(inc) >= 0.0 {
      TaxableOrdinaryWithoutLoss(inc, info);
      TaxableOrdinaryWithoutLoss(more, info);
    }
  }

  /** Growing income never lowers the income tax before credits: the
      ordinary walk sees at least as much, and the stacked walk places at
      least as much preferential income at least as high. */
  lemma IncomeTaxGrows(inc: Income, more: Income, info: FederalSchedule)
    requires info.Valid()
    requires IncomeGrows(inc, more)
    requires PreferentialIncome(inc) >= 0.0 || PreferentialIncome(more) == PreferentialIncome(inc)
    ensures ComputeFederal(inc, info).incomeTaxBeforeCredits
      <= ComputeFederal(more, info).incomeTaxBeforeCredits
  {
    var t1 := TaxableOrdinaryIncome(inc, info);
    var t2 := TaxableOrdinaryIncome(more, info);
    var p1 := PreferentialIncome(inc);
    var p2 := PreferentialIncome(more);
    var cg := info.capitalGainsBrackets;
    TaxableOrdinaryGrows(inc, more, info);
    TaxMonotone(t1, t2, 0.0, info.brackets);
    WellFormedHasUnbounded(cg);
    AscendingRatesAtLeastZero(0.0, cg);
    CapitalGainsTaxMonotoneInOrdinary(t1, t2, p1, cg);
    CapitalGainsTaxMonotoneInPreferential(t2, p1, p2, cg);
  }

  /** Growing income never lowers either surtax. */
  lemma SurtaxesGrow(inc: Income, more: Income, info: FederalSchedule)
    requires IncomeGrows(inc, more)
    ensures ComputeFederal(inc, info).medicareTax <= ComputeFederal(more, info).medicareTax
    ensures ComputeFederal(inc, info).niit <= ComputeFederal(more, info).niit
  {
    var th := info.medicareThreshold;
    ScaleMonotone(Max(0.0, inc.wages - th), Max(0.0, more.wages - th), 0.009);
    var b1 := NiitBase(NetInvestmentIncome(inc), Agi(inc), info.niitThreshold);
    var b2 := NiitBase(NetInvestmentIncome(more), Agi(more), info.niitThreshold);
    assert Agi(inc) <= Agi(more);
    ScaleMonotone(b1, b2, 0.038);
  }

  /** More income in any component never lowers the total federal tax, as
      long as preferential income was not a net loss or stays the same. */
  lemma TotalTaxMonotone(inc: Income, more: Income, info: FederalSchedule)
    requires info.Valid()
    requires IncomeGrows(inc, more)
    requires PreferentialIncome(inc) >= 0.0 || PreferentialIncome(more) == PreferentialIncome(inc)
    ensures ComputeFederal(inc, info).totalTax <= ComputeFederal(more, info).totalTax
  {
    IncomeTaxGrows(inc, more, info);
    SurtaxesGrow(inc, more, info);
    FederalTotals(inc, info);
    FederalTotals(more, info);
  }

  /** More wages never raise less total federal tax under the 2025 table. */
  lemma TotalTaxMonotoneInWages(inc: Income, fs: FilingStatus, more: real)
    requires more >= 0.0
    ensures FederalFor(inc, fs).totalTax <= FederalFor(inc.(wages := inc.wages + more), fs).totalTax
  {
    FederalInfoValid(fs);
    TotalTaxMonotone(inc, inc.(wages := inc.wages + more), FederalInfo(fs));
  }

  /** More long-term gains never raise less total federal tax under the 2025
      table, starting from a preferential income that is not a net loss. */
  lemma TotalTaxMonotoneInLongTermGains(inc: Income, fs: FilingStatus, more: real)
    requires more >= 0.0
    requires PreferentialIncome(inc) >= 0.0
    ensures FederalFor(inc, fs).totalTax
      <= FederalFor(inc.(longTermGains := inc.longTermGains + more), fs).totalTax
  {
    FederalInfoValid(fs);
    TotalTaxMonotone(inc, inc.(longTermGains := inc.longTermGains + more), FederalInfo(fs));
  }
}

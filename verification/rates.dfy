/** The 2025 rate table: federal and state schedules per filing status.
    The federal lists have type `Schedule`, so they are checked to be
    ascending from zero, closed by an unbounded bracket, with rates in
    [0, 1]; each state list is proved to have that shape by a lemma of its
    own. */
module RateTable {
  import opened Brackets
  import opened Wrappers

  datatype FilingStatus = Single | MarriedFilingJointly | HeadOfHousehold

  /** The state selector; `NoState` is the "Select State" entry, which has
      no row in the table. */
  datatype StateKey = NoState | California | Florida | NewYork | NorthCarolina | Texas | Virginia

  datatype FederalSchedule = FederalSchedule(
    deduction: real,
    brackets: Schedule,
    capitalGainsBrackets: Schedule,
    niitThreshold: real,
    medicareThreshold: real)
  {
    /** Deductions and surtax thresholds are non-negative amounts, and the
        capital-gains rates never fall from one tier to the next. */
    predicate Valid()
    {
      deduction >= 0.0 && niitThreshold >= 0.0 && medicareThreshold >= 0.0
      && RatesRising(capitalGainsBrackets)
    }
  }

  datatype StateSchedule = StateSchedule(deduction: real, brackets: seq<Bracket>, isFlat: bool)
  {
    /** The brackets have the table's shape, and a flat-rate schedule is a
        single bracket. */
    predicate Valid()
    {
      WellFormed(brackets) && (isFlat ==> |brackets| == 1)
    }
  }

  /** A state's row: either it levies no income tax, or it has a schedule per
      filing status. */
  datatype StateEntry =
    | NoIncomeTax
    | Levied(single: StateSchedule, joint: StateSchedule, headOfHousehold: StateSchedule)
  {
    function For(fs: FilingStatus): StateSchedule
      requires Levied?
    {
      match fs
      case Single => single
      case MarriedFilingJointly => joint
      case HeadOfHousehold => headOfHousehold
    }

    predicate Valid()
    {
      Levied? ==> single.Valid() && joint.Valid() && headOfHousehold.Valid()
    }
  }

  function B(rate: real, limit: real): Bracket { Bracket(rate, Finite(limit)) }
  function Top(rate: real): Bracket { Bracket(rate, Unbounded) }

  function FederalInfo(fs: FilingStatus): FederalSchedule
  {
    match fs
    case Single =>
      FederalSchedule(15000.0, FederalSingle(), CapitalGainsSingle(), 200000.0, 200000.0)
    case MarriedFilingJointly =>
      FederalSchedule(30000.0, FederalJoint(), CapitalGainsJoint(), 250000.0, 250000.0)
    case HeadOfHousehold =>
      FederalSchedule(22500.0, FederalHeadOfHousehold(), CapitalGainsHeadOfHousehold(), 200000.0, 200000.0)
  }

  function FederalSingle(): Schedule
  {
    [B(0.10, 11950.0), B(0.12, 48575.0), B(0.22, 103575.0), B(0.24, 197725.0),
     B(0.32, 251050.0), B(0.35, 627600.0), Top(0.37)]
  }

  function FederalJoint(): Schedule
  {
    [B(0.10, 23900.0), B(0.12, 97150.0), B(0.22, 207150.0), B(0.24, 395450.0),
     B(0.32, 502100.0), B(0.35, 753100.0), Top(0.37)]
  }

  function FederalHeadOfHousehold(): Schedule
  {
    [B(0.10, 17050.0), B(0.12, 65100.0), B(0.22, 103550.0), B(0.24, 197700.0),
     B(0.32, 251050.0), B(0.35, 627600.0), Top(0.37)]
  }

  function CapitalGainsSingle(): Schedule
  {
    [B(0.00, 49230.0), B(0.15, 541900.0), Top(0.20)]
  }

  function CapitalGainsJoint(): Schedule
  {
    [B(0.00, 98460.0), B(0.15, 606550.0), Top(0.20)]
  }

  function CapitalGainsHeadOfHousehold(): Schedule
  {
    [B(0.00, 66050.0), B(0.15, 573700.0), Top(0.20)]
  }

  /** The rates 0%, 15%, 20% never fall. */
  lemma CapitalGainsRatesRising(cg: seq<Bracket>)
    requires |cg| == 3 && cg[0].rate == 0.0 && cg[1].rate == 0.15 && cg[2].rate == 0.20
    ensures RatesRising(cg)
  {
    var t := cg[1..];
    assert t[1..][1..] == [];
    assert RatesRising(t[1..]);
    assert RatesAtLeast(t[1..], t[0].rate);
    assert RatesAtLeast(t, cg[0].rate);
  }

  /** Every federal row has non-negative amounts and capital-gains rates
      that never fall. */
  lemma FederalInfoValid(fs: FilingStatus)
    ensures FederalInfo(fs).Valid()
  {
    CapitalGainsRatesRising(FederalInfo(fs).capitalGainsBrackets);
  }

  function VirginiaBrackets(): seq<Bracket>
  {
    [B(0.02, 3000.0), B(0.03, 5000.0), B(0.05, 17000.0), Top(0.0575)]
  }

  function NorthCarolinaBrackets(): seq<Bracket>
  {
    [Top(0.0425)]
  }

  function CaliforniaSingle(): seq<Bracket>
  {
    [B(0.01, 10756.0), B(0.02, 25499.0), B(0.04, 40245.0), B(0.06, 55866.0),
     B(0.08, 70606.0), B(0.093, 360659.0), B(0.103, 432787.0), B(0.113, 721314.0),
     Top(0.123)]
  }

  function CaliforniaJoint(): seq<Bracket>
  {
    [B(0.01, 21512.0), B(0.02, 50998.0), B(0.04, 80490.0), B(0.06, 111732.0),
     B(0.08, 141212.0), B(0.093, 721318.0), B(0.103, 865574.0), B(0.113, 1442628.0),
     Top(0.123)]
  }

  function CaliforniaHeadOfHousehold(): seq<Bracket>
  {
    [B(0.01, 21527.0), B(0.02, 51000.0), B(0.04, 65744.0), B(0.06, 81364.0),
     B(0.08, 97329.0), B(0.093, 489637.0), B(0.103, 587563.0), B(0.113, 979273.0),
     Top(0.123)]
  }

  function NewYorkSingle(): seq<Bracket>
  {
    [B(0.04, 8500.0), B(0.045, 11700.0), B(0.0525, 13900.0), B(0.055, 80650.0),
     B(0.06, 215400.0), B(0.0685, 1077550.0), B(0.0965, 5000000.0), B(0.103, 25000000.0),
     Top(0.109)]
  }

  function NewYorkJoint(): seq<Bracket>
  {
    [B(0.04, 17150.0), B(0.045, 23600.0), B(0.0525, 27900.0), B(0.055, 161550.0),
     B(0.06, 323200.0), B(0.0685, 2155350.0), B(0.0965, 5000000.0), B(0.103, 25000000.0),
     Top(0.109)]
  }

  function NewYorkHeadOfHousehold(): seq<Bracket>
  {
    [B(0.04, 12800.0), B(0.045, 17650.0), B(0.0525, 20900.0), B(0.055, 107650.0),
     B(0.06, 269300.0), B(0.0685, 1616450.0), B(0.0965, 5000000.0), B(0.103, 25000000.0),
     Top(0.109)]
  }

  /** `taxInfo[state]`: the selector `NoState` has no row. */
  function StateInfo(key: StateKey): Option<StateEntry>
  {
    match key
    case NoState => None
    case Florida => Some(NoIncomeTax)
    case Texas => Some(NoIncomeTax)
    case Virginia =>
      Some(Levied(
        StateSchedule(8000.0, VirginiaBrackets(), false),
        StateSchedule(16000.0, VirginiaBrackets(), false),
        StateSchedule(8000.0, VirginiaBrackets(), false)))
    case California =>
      Some(Levied(
        StateSchedule(5540.0, CaliforniaSingle(), false),
        StateSchedule(11080.0, CaliforniaJoint(), false),
        StateSchedule(11080.0, CaliforniaHeadOfHousehold(), false)))
    case NewYork =>
      Some(Levied(
        StateSchedule(8000.0, NewYorkSingle(), false),
        StateSchedule(16050.0, NewYorkJoint(), false),
        StateSchedule(11200.0, NewYorkHeadOfHousehold(), false)))
    case NorthCarolina =>
      Some(Levied(
        StateSchedule(12750.0, NorthCarolinaBrackets(), true),
        StateSchedule(25500.0, NorthCarolinaBrackets(), true),
        StateSchedule(19125.0, NorthCarolinaBrackets(), true)))
  }

  /** Only the `NoState` selector lacks a row. */
  lemma StateRowIffSelected(key: StateKey)
    ensures StateInfo(key).None? <==> key == NoState
  {
    match key
    case NoState =>
    case California =>
    case Florida =>
    case NewYork =>
    case NorthCarolina =>
    case Texas =>
    case Virginia =>
  }

  /** Florida and Texas are the states without an income tax. */
  lemma NoIncomeTaxStates(key: StateKey)
    ensures StateInfo(key) == Some(NoIncomeTax) <==> (key == Florida || key == Texas)
  {
    match key
    case NoState =>
    case California =>
    case Florida =>
    case NewYork =>
    case NorthCarolina =>
    case Texas =>
    case Virginia =>
  }

  lemma VirginiaWellFormed()
    ensures WellFormed(VirginiaBrackets())
  {
  }

  lemma NorthCarolinaWellFormed()
    ensures WellFormed(NorthCarolinaBrackets())
  {
  }

  lemma CaliforniaSingleWellFormed()
    ensures WellFormed(CaliforniaSingle())
  {
  }

  lemma CaliforniaJointWellFormed()
    ensures WellFormed(CaliforniaJoint())
  {
  }

  lemma CaliforniaHeadOfHouseholdWellFormed()
    ensures WellFormed(CaliforniaHeadOfHousehold())
  {
  }

  lemma NewYorkSingleWellFormed()
    ensures WellFormed(NewYorkSingle())
  {
  }

  lemma NewYorkJointWellFormed()
    ensures WellFormed(NewYorkJoint())
  {
  }

  lemma NewYorkHeadOfHouseholdWellFormed()
    ensures WellFormed(NewYorkHeadOfHousehold())
  {
  }

  /** Every state row of the table is well formed, and its flat-rate
      schedules are single brackets. */
  lemma StateTableValid(key: StateKey)
    requires StateInfo(key).Some?
    ensures StateInfo(key).value.Valid()
  {
    match key
    case Florida =>
    case Texas =>
    case Virginia => VirginiaWellFormed();
    case NorthCarolina => NorthCarolinaWellFormed();
    case California =>
      CaliforniaSingleWellFormed();
      CaliforniaJointWellFormed();
      CaliforniaHeadOfHouseholdWellFormed();
    case NewYork =>
      NewYorkSingleWellFormed();
      NewYorkJointWellFormed();
      NewYorkHeadOfHouseholdWellFormed();
  }

  /** The state's name as the selector shows it. */
  function StateName(key: StateKey): string
  {
    match key
    case NoState => "Select State"
    case California => "California"
    case Florida => "Florida"
    case NewYork => "New York"
    case NorthCarolina => "North Carolina"
    case Texas => "Texas"
    case Virginia => "Virginia"
  }
}

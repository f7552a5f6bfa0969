/**
 * The comparison engine: from a scenario's seven inputs to the two monthly totals,
 * the savings and the verdict, plus the per-option breakdowns, the breakeven
 * attendance and the tier choice of the compact currency format.
 * All arithmetic is exact (`real`); nothing is rounded before display.
 */
module Calculations {
  import opened Types

  /** Assumed average commute speed, km/h. */
  const AverageSpeedKmh: real := 30.0
  /** Cost of one kilometre travelled, rupees. */
  const TransportCostPerKm: real := 20.0
  /** Weeks in an average month: scales a weekly attendance to a monthly one. */
  const WorkingDaysPerMonth: real := 4.33

  /** Monthly working hours assumed when deriving an hourly wage from a monthly salary. */
  const HoursPerMonth: real := 240.0

  // ---------------------------------------------------------------------------
  // The comparison
  // ---------------------------------------------------------------------------

  /** `d` is the distance between `x` and `y`: never negative, and one of the two differences. */
  predicate IsDistance(d: real, x: real, y: real)
  {
    d >= 0.0 && (d == x - y || d == y - x)
  }

  function Abs(x: real): (r: real)
    ensures IsDistance(r, x, 0.0)
  {
    if x < 0.0 then -x else x
  }

  function Max(x: real, y: real): (r: real)
    ensures r >= x && r >= y && (r == x || r == y)
  {
    if x < y then y else x
  }

  /** Round trip at the average speed, in hours: one hour per 15 km of one-way distance. */
  function CommuteHoursPerDay(commuteDistance: real): (r: real)
    ensures r == commuteDistance / 15.0
  {
    (commuteDistance * 2.0) / AverageSpeedKmh
  }

  /** Monthly cost of the kilometres travelled: 173.2 rupees per one-way km per weekly office day. */
  function TransportCost(daysInOffice: real, commuteDistance: real): (r: real)
    ensures r == 173.2 * (commuteDistance * daysInOffice)
  {
    commuteDistance * TransportCostPerKm * 2.0 * daysInOffice * WorkingDaysPerMonth
  }

  /**
   * Monthly value of the time spent commuting, at the derived hourly wage. The fixed
   * 240-hour month makes it a fixed fraction of salary × distance × office days.
   */
  function MonthlyOpportunityCost(annualSalary: real, daysInOffice: real, commuteDistance: real): (r: real)
    ensures r == (annualSalary * (commuteDistance * daysInOffice)) * 433.0 / 4320000.0
  {
    var monthlySalary := annualSalary / 12.0;
    var hourlyRate := monthlySalary / HoursPerMonth;
    CommuteHoursPerDay(commuteDistance) * hourlyRate * daysInOffice * WorkingDaysPerMonth
  }

  /**
   * The whole comparison. The suburb total carries the commute costs, the city total
   * does not; the savings are the gap between the totals whichever way it goes; the
   * verdict picks the city only when it is strictly cheaper.
   */
  function CalculateComparison(
    annualSalary: real,
    daysInOffice: real,
    commuteDistance: real,
    cityRent: real,
    suburbRent: real,
    cityOtherExpenses: real,
    suburbOtherExpenses: real): (r: ComparisonResult)
    ensures r.totalCityCost == cityRent + cityOtherExpenses
    ensures r.totalSuburbCost == suburbRent + r.transportCost + r.monthlyOpportunityCost + suburbOtherExpenses
    ensures r.transportCost == TransportCost(daysInOffice, commuteDistance)
    ensures r.monthlyOpportunityCost == MonthlyOpportunityCost(annualSalary, daysInOffice, commuteDistance)
    ensures r.commuteHoursPerDay == CommuteHoursPerDay(commuteDistance)
    ensures r.opportunityCost == r.monthlyOpportunityCost
    ensures IsDistance(r.monthlySavings, r.totalCityCost, r.totalSuburbCost)
    ensures r.annualSavings == 12.0 * r.monthlySavings
    ensures r.verdict == CityCenter <==> r.totalCityCost < r.totalSuburbCost
  {
    var commuteHoursPerDay := CommuteHoursPerDay(commuteDistance);
    var monthlyOpportunityCost := MonthlyOpportunityCost(annualSalary, daysInOffice, commuteDistance);
    var transportCost := TransportCost(daysInOffice, commuteDistance);
    var totalCityCost := cityRent + cityOtherExpenses;
    var totalSuburbCost := suburbRent + transportCost + monthlyOpportunityCost + suburbOtherExpenses;
    var monthlySavings := Abs(totalCityCost - totalSuburbCost);
    ComparisonResult(
      totalCityCost,
      totalSuburbCost,
      transportCost,
      monthlyOpportunityCost,
      commuteHoursPerDay,
      if totalCityCost < totalSuburbCost then CityCenter else Suburbs,
      monthlyOpportunityCost,
      monthlySavings,
      monthlySavings * 12.0)
  }

  /** The verdict names the cheaper option; a tie goes to the suburbs. */
  lemma VerdictPicksCheaper(
    annualSalary: real, daysInOffice: real, commuteDistance: real,
    cityRent: real, suburbRent: real, cityOtherExpenses: real, suburbOtherExpenses: real)
    ensures var r := CalculateComparison(annualSalary, daysInOffice, commuteDistance,
                                         cityRent, suburbRent, cityOtherExpenses, suburbOtherExpenses);
            && (r.verdict == CityCenter ==> r.totalCityCost < r.totalSuburbCost)
            && (r.verdict == Suburbs ==> r.totalSuburbCost <= r.totalCityCost)
            && (r.totalCityCost == r.totalSuburbCost ==> r.verdict == Suburbs)
  {
  }

  /** The savings are what the verdict saves: the dearer total minus the cheaper one. */
  lemma SavingsFollowVerdict(
    annualSalary: real, daysInOffice: real, commuteDistance: real,
    cityRent: real, suburbRent: real, cityOtherExpenses: real, suburbOtherExpenses: real)
    ensures var r := CalculateComparison(annualSalary, daysInOffice, commuteDistance,
                                         cityRent, suburbRent, cityOtherExpenses, suburbOtherExpenses);
            r.monthlySavings == (if r.verdict == CityCenter then r.totalSuburbCost - r.totalCityCost
                                 else r.totalCityCost - r.totalSuburbCost)
  {
  }

  /** With a non-negative salary, attendance and distance no commute figure is negative. */
  lemma CommuteCostsNonNegative(annualSalary: real, daysInOffice: real, commuteDistance: real)
    requires annualSalary >= 0.0 && daysInOffice >= 0.0 && commuteDistance >= 0.0
    ensures CommuteHoursPerDay(commuteDistance) >= 0.0
    ensures TransportCost(daysInOffice, commuteDistance) >= 0.0
    ensures MonthlyOpportunityCost(annualSalary, daysInOffice, commuteDistance) >= 0.0
  {
  }

  /** A longer commute never makes any commute figure smaller. */
  lemma CommuteCostsMonotoneInDistance(
    annualSalary: real, daysInOffice: real, near: real, far: real)
    requires annualSalary >= 0.0 && daysInOffice >= 0.0 && near <= far
    ensures CommuteHoursPerDay(near) <= CommuteHoursPerDay(far)
    ensures TransportCost(daysInOffice, near) <= TransportCost(daysInOffice, far)
    ensures MonthlyOpportunityCost(annualSalary, daysInOffice, near)
            <= MonthlyOpportunityCost(annualSalary, daysInOffice, far)
  {
  }

  /** A longer commute never lowers the suburb total, and never touches the city total. */
  lemma SuburbTotalMonotoneInDistance(
    annualSalary: real, daysInOffice: real, near: real, far: real,
    cityRent: real, suburbRent: real, cityOtherExpenses: real, suburbOtherExpenses: real)
    requires annualSalary >= 0.0 && daysInOffice >= 0.0 && near <= far
    ensures var a := CalculateComparison(annualSalary, daysInOffice, near,
                                         cityRent, suburbRent, cityOtherExpenses, suburbOtherExpenses);
            var b := CalculateComparison(annualSalary, daysInOffice, far,
                                         cityRent, suburbRent, cityOtherExpenses, suburbOtherExpenses);
            && a.totalSuburbCost <= b.totalSuburbCost
            && a.totalCityCost == b.totalCityCost
            && (a.verdict == CityCenter ==> b.verdict == CityCenter)
  {
    CommuteCostsMonotoneInDistance(annualSalary, daysInOffice, near, far);
  }

  /**
   * The first preset (Mumbai): 1 200 000 a year, five days, 15 km. One hour a day,
   * 12 990 for transport, 54125/6 (about 9 020.83) of commuting time; the suburb wins
   * by 83935/6 (about 13 989.17) a month.
   */
  lemma MumbaiPreset()
    ensures var r := CalculateComparison(1200000.0, 5.0, 15.0, 50000.0, 20000.0, 12000.0, 6000.0);
            && r.commuteHoursPerDay == 1.0
            && r.transportCost == 12990.0
            && r.monthlyOpportunityCost == 54125.0 / 6.0
            && r.totalCityCost == 62000.0
            && r.totalSuburbCost == 288065.0 / 6.0
            && r.verdict == Suburbs
            && r.monthlySavings == 83935.0 / 6.0
            && r.annualSavings == 167870.0
  {
  }

  // ---------------------------------------------------------------------------
  // Breakdowns
  // ---------------------------------------------------------------------------

  /** A breakdown whose total is the sum of its four parts. */
  predicate Balanced(b: ExpenseBreakdown)
  {
    b.total == b.rent + b.transport + b.opportunity + b.other
  }

  /** The city option: rent and other expenses, no commute. */
  function GetCityExpenseBreakdown(cityRent: real, cityOtherExpenses: real): (b: ExpenseBreakdown)
    ensures Balanced(b)
    ensures b.rent == cityRent && b.other == cityOtherExpenses
    ensures b.transport == 0.0 && b.opportunity == 0.0
  {
    ExpenseBreakdown(cityRent, 0.0, 0.0, cityOtherExpenses, cityRent + cityOtherExpenses)
  }

  /** The suburb option: rent, both commute costs and other expenses. */
  function GetSuburbExpenseBreakdown(
    suburbRent: real, transportCost: real, opportunityCost: real, suburbOtherExpenses: real): (b: ExpenseBreakdown)
    ensures Balanced(b)
    ensures b.rent == suburbRent && b.transport == transportCost
    ensures b.opportunity == opportunityCost && b.other == suburbOtherExpenses
  {
    ExpenseBreakdown(suburbRent, transportCost, opportunityCost, suburbOtherExpenses,
                     suburbRent + transportCost + opportunityCost + suburbOtherExpenses)
  }

  /**
   * Fed as the dashboard feeds them, the two breakdowns add up to the comparison's
   * two totals.
   */
  lemma BreakdownsMatchComparison(
    annualSalary: real, daysInOffice: real, commuteDistance: real,
    cityRent: real, suburbRent: real, cityOtherExpenses: real, suburbOtherExpenses: real)
    ensures var r := CalculateComparison(annualSalary, daysInOffice, commuteDistance,
                                         cityRent, suburbRent, cityOtherExpenses, suburbOtherExpenses);
            && GetCityExpenseBreakdown(cityRent, cityOtherExpenses).total == r.totalCityCost
            && GetSuburbExpenseBreakdown(suburbRent, r.transportCost, r.monthlyOpportunityCost,
                                         suburbOtherExpenses).total == r.totalSuburbCost
  {
  }

  // ---------------------------------------------------------------------------
  // Breakeven
  // ---------------------------------------------------------------------------

  /**
   * How many units of the variable (commute) cost the fixed saving of the suburb pays
   * for. Zero when there is no variable cost or when the suburb saves nothing fixed.
   */
  function CalculateBreakeven(
    cityRent: real,
    suburbRent: real,
    transportCostPerMonth: real,
    opportunityCostPerMonth: real,
    suburbOtherExpenses: real,
    cityOtherExpenses: real): (r: real)
    ensures r >= 0.0
    ensures transportCostPerMonth + opportunityCostPerMonth <= 0.0 ==> r == 0.0
    ensures r > 0.0 <==> transportCostPerMonth + opportunityCostPerMonth > 0.0
                         && cityRent - suburbRent + (cityOtherExpenses - suburbOtherExpenses) > 0.0
  {
    var rentDifference := cityRent - suburbRent;
    var otherExpensesDifference := cityOtherExpenses - suburbOtherExpenses;
    var variableCosts := transportCostPerMonth + opportunityCostPerMonth;
    if variableCosts <= 0.0 then 0.0
    else Max(0.0, (rentDifference + otherExpensesDifference) / variableCosts)
  }

  /**
   * At the breakeven point the two options cost the same: the suburb's fixed costs
   * plus `r` units of the variable cost equal the city's fixed costs.
   */
  lemma BreakevenBalancesCosts(
    cityRent: real, suburbRent: real, transportCostPerMonth: real, opportunityCostPerMonth: real,
    suburbOtherExpenses: real, cityOtherExpenses: real)
    requires transportCostPerMonth + opportunityCostPerMonth > 0.0
    requires cityRent + cityOtherExpenses >= suburbRent + suburbOtherExpenses
    ensures var r := CalculateBreakeven(cityRent, suburbRent, transportCostPerMonth, opportunityCostPerMonth,
                                        suburbOtherExpenses, cityOtherExpenses);
            suburbRent + suburbOtherExpenses + r * (transportCostPerMonth + opportunityCostPerMonth)
            == cityRent + cityOtherExpenses
  {
  }

  /** No commute cost at all: the breakeven is 0 whatever the rents and expenses. */
  lemma BreakevenWithoutCommuteCost(cityRent: real, suburbRent: real, suburbOtherExpenses: real,
                                    cityOtherExpenses: real)
    ensures CalculateBreakeven(cityRent, suburbRent, 0.0, 0.0, suburbOtherExpenses, cityOtherExpenses) == 0.0
  {
  }

  // ---------------------------------------------------------------------------
  // Compact currency format
  // ---------------------------------------------------------------------------

  /** The Indian scale units the compact format chooses between. */
  datatype Tier = Crore | Lakh | Thousand | Raw

  const Rupee: char := '\U{20B9}'

  /** The largest unit the amount reaches; a negative amount reaches none. */
  function CompactTier(amount: real): (t: Tier)
    ensures t == Crore <==> amount >= 10000000.0
    ensures t == Lakh <==> 100000.0 <= amount < 10000000.0
    ensures t == Thousand <==> 1000.0 <= amount < 100000.0
    ensures t == Raw <==> amount < 1000.0
  {
    if amount >= 10000000.0 then Crore
    else if amount >= 100000.0 then Lakh
    else if amount >= 1000.0 then Thousand
    else Raw
  }

  /** Position of a tier on the scale, Raw lowest. */
  function Rank(t: Tier): (r: nat)
  {
    match t
    case Raw => 0
    case Thousand => 1
    case Lakh => 2
    case Crore => 3
  }

  /** A larger amount never gets a smaller unit. */
  lemma CompactTierMonotone(a: real, b: real)
    requires a <= b
    ensures Rank(CompactTier(a)) <= Rank(CompactTier(b))
  {
  }

  /** The three boundaries, one below and at each. */
  lemma CompactTierBoundaries()
    ensures CompactTier(9999999.0) == Lakh && CompactTier(10000000.0) == Crore
    ensures CompactTier(99999.0) == Thousand && CompactTier(100000.0) == Lakh
    ensures CompactTier(999.0) == Raw && CompactTier(1000.0) == Thousand
    ensures CompactTier(-5000.0) == Raw
  {
  }

  /** Text after the number, for each tier. */
  function Suffix(t: Tier): (r: string)
  {
    match t
    case Crore => "Cr"
    case Lakh => "L"
    case Thousand => "K"
    case Raw => ""
  }

  /** The unit an amount is divided by, for each scaled tier. */
  function Scale(t: Tier): (r: real)
    requires t != Raw
  {
    match t
    case Crore => 10000000.0
    case Lakh => 100000.0
    case Thousand => 1000.0
  }

  /** Decimal places shown, for each scaled tier. */
  function Decimals(t: Tier): (r: nat)
    requires t != Raw
  {
    match t
    case Crore => 1
    case Lakh => 1
    case Thousand => 0
  }

  /**
   * The compact currency text. `toFixed(x, n)` stands for JavaScript's
   * `x.toFixed(n)` and `show(x)` for its default number text; both are supplied by
   * the caller, since digit rendering is not part of this model. The text is the
   * rupee sign, the amount in the unit of its tier, and the tier's suffix.
   */
  function FormatCurrencyCompact(amount: real, toFixed: (real, nat) -> string, show: real -> string): (s: string)
    ensures var t := CompactTier(amount);
            && |s| >= 1 + |Suffix(t)|
            && s[0] == Rupee
            && s[|s| - |Suffix(t)|..] == Suffix(t)
            && s[1..|s| - |Suffix(t)|] == (if t == Raw then show(amount)
                                           else toFixed(amount / Scale(t), Decimals(t)))
  {
    if amount >= 10000000.0 then [Rupee] + toFixed(amount / 10000000.0, 1) + "Cr"
    else if amount >= 100000.0 then [Rupee] + toFixed(amount / 100000.0, 1) + "L"
    else if amount >= 1000.0 then [Rupee] + toFixed(amount / 1000.0, 0) + "K"
    else [Rupee] + show(amount)
  }
}

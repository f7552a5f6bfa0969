/** The records shared by the calculation engine and the scenario list. */
module Types {

  /** A value that may be absent (a nullable reference, an optional field). */
  datatype Option<+T> = None | Some(value: T)

  /** The recommendation: which housing option costs less per month. */
  datatype Verdict = CityCenter | Suburbs

  /** A saved set of inputs, as the datastore keeps it. Money is in rupees, distance in km. */
  datatype Scenario = Scenario(
    id: string,
    userId: Option<string>,
    name: string,
    annualSalary: real,
    daysInOffice: real,
    commuteDistance: real,
    cityCenterRent: real,
    suburbRent: real,
    otherCityExpenses: real,
    otherSuburbExpenses: real,
    verdict: Verdict,
    savingsPerMonth: real,
    isDefault: bool,
    createdAt: string,
    updatedAt: string)

  /** A partial scenario: every field may be left out (`Partial<Scenario>`). */
  datatype ScenarioUpdate = ScenarioUpdate(
    id: Option<string>,
    userId: Option<Option<string>>,
    name: Option<string>,
    annualSalary: Option<real>,
    daysInOffice: Option<real>,
    commuteDistance: Option<real>,
    cityCenterRent: Option<real>,
    suburbRent: Option<real>,
    otherCityExpenses: Option<real>,
    otherSuburbExpenses: Option<real>,
    verdict: Option<Verdict>,
    savingsPerMonth: Option<real>,
    isDefault: Option<bool>,
    createdAt: Option<string>,
    updatedAt: Option<string>)

  /** The update that names no field at all. */
  const NoUpdate := ScenarioUpdate(None, None, None, None, None, None, None, None,
                                   None, None, None, None, None, None, None)

  /** Everything the comparison derives from one scenario's seven inputs. */
  datatype ComparisonResult = ComparisonResult(
    totalCityCost: real,
    totalSuburbCost: real,
    transportCost: real,
    opportunityCost: real,
    commuteHoursPerDay: real,
    verdict: Verdict,
    monthlyOpportunityCost: real,
    monthlySavings: real,
    annualSavings: real)

  /** The per-option decomposition of a monthly cost, for display. */
  datatype ExpenseBreakdown = ExpenseBreakdown(
    rent: real,
    transport: real,
    opportunity: real,
    other: real,
    total: real)
}

/**
 * The closed-form forecast of App/services.py: per-month columns built from
 * the caller's economic figures, for the "large" or the "small_medium"
 * business unit, matched case-insensitively.
 */
module Services {
  import opened Wrappers
  import opened Text

  /** The request fields that App/services.py reads. Numbers are exact reals. */
  datatype ForecastRequest = ForecastRequest(
    businessUnit: string,
    months: int,
    revenuePerCustomer: real,
    salesPerExecutive: real,
    marketingCost: real,
    cac: real,
    conversionRate: real,
    smallMediumRevenuePerCustomer: real)

  /** The columns of the returned table, per business unit. */
  datatype Table =
    | LargeTable(month: seq<int>, revenue: seq<real>)
    | SmallMediumTable(month: seq<int>, payingCustomers: seq<int>, revenue: seq<real>)

  datatype ServiceError =
    | InvalidBusinessUnit   // the ValueError of the final else
    | DivisionByZero        // ZeroDivisionError of marketing_cost / cac

  /** Python's int(x) on a finite number: truncation toward zero. */
  function Truncate(x: real): (n: int)
    ensures x >= 0.0 ==> 0 <= n && n as real <= x < n as real + 1.0
    ensures x < 0.0 ==> n <= 0 && n as real - 1.0 < x <= n as real
  {
    if x >= 0.0 then x.Floor else -((-x).Floor)
  }

  /** list(range(1, months + 1)) */
  function MonthColumn(months: int): seq<int>
  {
    if months <= 0 then [] else seq(months, i requires 0 <= i < months => i + 1)
  }

  /** int((marketing_cost / cac) * conversion_rate) */
  function PayingCustomersPerMonth(marketingCost: real, cac: real, conversionRate: real): (p: int)
    requires cac != 0.0
    ensures var y := (marketingCost / cac) * conversionRate;
      (y >= 0.0 ==> 0 <= p && p as real <= y < p as real + 1.0) &&
      (y < 0.0 ==> p <= 0 && p as real - 1.0 < y <= p as real)
  {
    Truncate((marketingCost / cac) * conversionRate)
  }

  /** [revenue_per_customer * sales_per_executive * m for m in months] */
  function LargeRevenueColumn(revenuePerCustomer: real, salesPerExecutive: real, months: seq<int>): seq<real>
  {
    seq(|months|, i requires 0 <= i < |months| => revenuePerCustomer * salesPerExecutive * months[i] as real)
  }

  /** [paying_customers_per_month * m for m in months] */
  function PayingCustomersColumn(p: int, months: seq<int>): seq<int>
  {
    seq(|months|, i requires 0 <= i < |months| => p * months[i])
  }

  /** [paying_customers_per_month * small_medium_revenue_per_customer * m for m in months] */
  function SmallMediumRevenueColumn(p: int, revenuePerCustomer: real, months: seq<int>): seq<real>
  {
    seq(|months|, i requires 0 <= i < |months| => p as real * revenuePerCustomer * months[i] as real)
  }

  function GenerateForecast(req: ForecastRequest): (r: Result<Table, ServiceError>)
    ensures r.Ok? ==> r.value.month == MonthColumn(req.months)
  {
    var unit := Lower(req.businessUnit);
    var months := MonthColumn(req.months);
    if unit == "large" then
      Ok(LargeTable(months, LargeRevenueColumn(req.revenuePerCustomer, req.salesPerExecutive, months)))
    else if unit == "small_medium" then
      if req.cac == 0.0 then Err(DivisionByZero)
      else
        var p := PayingCustomersPerMonth(req.marketingCost, req.cac, req.conversionRate);
        Ok(SmallMediumTable(
          months,
          PayingCustomersColumn(p, months),
          SmallMediumRevenueColumn(p, req.smallMediumRevenuePerCustomer, months)))
    else
      Err(InvalidBusinessUnit)
  }

  // ---------------------------------------------------------------------
  // Properties
  // ---------------------------------------------------------------------

  /** The Month column is 1, 2, ..., months, empty when months <= 0. */
  lemma MonthColumnSpec(months: int)
    ensures |MonthColumn(months)| == if months > 0 then months else 0
    ensures forall i :: 0 <= i < |MonthColumn(months)| ==> MonthColumn(months)[i] == i + 1
  {
  }

  /** The unit is matched through its lower-case form only. */
  lemma CaseInsensitive(req: ForecastRequest, unit: string)
    requires Lower(unit) == Lower(req.businessUnit)
    ensures GenerateForecast(req.(businessUnit := unit)) == GenerateForecast(req)
  {
  }

  /** "LARGE" and "Small_Medium" are accepted. */
  lemma MixedCaseAccepted(req: ForecastRequest)
    ensures GenerateForecast(req.(businessUnit := "LARGE")).Ok?
    ensures req.cac != 0.0 ==> GenerateForecast(req.(businessUnit := "Small_Medium")).Ok?
  {
    assert Lower("LARGE") == "large";
    assert Lower("Small_Medium") == "small_medium";
  }

  /** Any unit other than the two names, in any case, is a ValueError. */
  lemma InvalidUnitRejected(req: ForecastRequest)
    ensures GenerateForecast(req) == Err(InvalidBusinessUnit)
      <==> Lower(req.businessUnit) != "large" && Lower(req.businessUnit) != "small_medium"
  {
  }

  /** Every column of a produced table has one entry per month. */
  lemma ColumnsHaveMonthsRows(req: ForecastRequest)
    requires GenerateForecast(req).Ok?
    ensures var t := GenerateForecast(req).value;
      var n := if req.months > 0 then req.months else 0;
      |t.month| == n && |t.revenue| == n && (t.SmallMediumTable? ==> |t.payingCustomers| == n)
  {
    MonthColumnSpec(req.months);
  }

  /** "large": revenue in month m is revenue_per_customer * sales_per_executive * m. */
  lemma LargeRevenueLinear(req: ForecastRequest)
    requires Lower(req.businessUnit) == "large"
    ensures GenerateForecast(req).Ok? && GenerateForecast(req).value.LargeTable?
    ensures var rev := GenerateForecast(req).value.revenue;
      forall i :: 0 <= i < |rev| ==>
        rev[i] == (i + 1) as real * (req.revenuePerCustomer * req.salesPerExecutive)
  {
    MonthColumnSpec(req.months);
  }

  /** "large": consecutive months differ by the same amount, and month 0 would be zero. */
  lemma LargeRevenueConstantStep(req: ForecastRequest, i: nat)
    requires Lower(req.businessUnit) == "large"
    requires i + 1 < req.months
    ensures var rev := GenerateForecast(req).value.revenue;
      rev[i + 1] - rev[i] == rev[0] == req.revenuePerCustomer * req.salesPerExecutive
  {
    LargeRevenueLinear(req);
    var c := req.revenuePerCustomer * req.salesPerExecutive;
    assert (i + 2) as real * c - (i + 1) as real * c == c;
  }

  /** Per month, the paying customers are p * m and the revenue is what those customers pay. */
  lemma SmallMediumColumnsAt(p: int, revenuePerCustomer: real, months: seq<int>, i: nat)
    requires i < |months|
    ensures PayingCustomersColumn(p, months)[i] == p * months[i]
    ensures SmallMediumRevenueColumn(p, revenuePerCustomer, months)[i]
      == PayingCustomersColumn(p, months)[i] as real * revenuePerCustomer
  {
    ProductAsReal(p, months[i], revenuePerCustomer);
  }

  /** "small_medium": p = int((marketing_cost / cac) * conversion_rate) is computed once; month m has p * m paying customers and earns their revenue. */
  lemma SmallMediumColumns(req: ForecastRequest)
    requires Lower(req.businessUnit) == "small_medium" && req.cac != 0.0
    ensures GenerateForecast(req).Ok? && GenerateForecast(req).value.SmallMediumTable?
    ensures var t := GenerateForecast(req).value;
      var p := PayingCustomersPerMonth(req.marketingCost, req.cac, req.conversionRate);
      forall i :: 0 <= i < |t.month| ==>
        t.payingCustomers[i] == p * t.month[i] &&
        t.revenue[i] == t.payingCustomers[i] as real * req.smallMediumRevenuePerCustomer
  {
    var months := MonthColumn(req.months);
    var p := PayingCustomersPerMonth(req.marketingCost, req.cac, req.conversionRate);
    var t := SmallMediumTable(months, PayingCustomersColumn(p, months),
      SmallMediumRevenueColumn(p, req.smallMediumRevenuePerCustomer, months));
    assert GenerateForecast(req) == Ok(t);
    forall i | 0 <= i < |t.month|
      ensures t.payingCustomers[i] == p * t.month[i]
      ensures t.revenue[i] == t.payingCustomers[i] as real * req.smallMediumRevenuePerCustomer
    {
      SmallMediumColumnsAt(p, req.smallMediumRevenuePerCustomer, months, i);
    }
  }

  /** Multiplying in the reals agrees with multiplying the ints first. */
  lemma ProductAsReal(p: int, m: int, c: real)
    ensures p as real * c * m as real == (p * m) as real * c
  {
    assert (p * m) as real == p as real * m as real;
  }

  /** "small_medium" with cac = 0 fails instead of producing a table; "large" ignores cac. */
  lemma ZeroCac(req: ForecastRequest)
    requires req.cac == 0.0
    ensures Lower(req.businessUnit) == "small_medium" ==> GenerateForecast(req) == Err(DivisionByZero)
    ensures Lower(req.businessUnit) == "large" ==> GenerateForecast(req).Ok?
  {
  }

  /** The funnel figures of the forecast engine's constant (30000 / 1500 × 0.45) give nine paying customers a month. */
  lemma DefaultFunnel()
    ensures PayingCustomersPerMonth(30000.0, 1500.0, 0.45) == 9
  {
  }

  /** int() drops the fraction: 0.9 paying customers a month become none. */
  lemma TruncationDropsFraction()
    ensures PayingCustomersPerMonth(2000.0, 1000.0, 0.45) == 0
  {
  }
}

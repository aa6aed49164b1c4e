/**
 * The month-by-month forecast of app/logic_engine.py.
 *
 * The classifier's answer (already stripped and lower-cased) picks the
 * business unit; the "large" unit grows its sales team every third month
 * and adds 1.5 customers per salesperson each month, the "small_medium"
 * unit adds a fixed nine customers a month. Amounts that Python holds as
 * floats are exact reals here.
 */
module LogicEngine {
  import opened Wrappers
  import opened Text

  const RevenuePerLargeCustomer: real := 16500.0
  const RevenuePerSmbCustomer: real := 500.0
  const SalespeopleToLargeCustomerRatio: real := 1.5
  const NewSmbCustomersPerMonth: real := (30000.0 / 1500.0) * 0.45
  const InitialLargeCustomers: real := 5.0
  const InitialSalespeople: int := 2

  /** One row of the forecast table; the "large" table has a Salespeople column. */
  datatype Record =
    | LargeRecord(month: string, salespeople: int, totalCustomers: real, revenue: real)
    | SmbRecord(month: string, totalCustomers: real, revenue: real)

  /** The ValueError raised when the answer names neither business unit. */
  datatype ForecastError = UninterpretableQuery

  // ---------------------------------------------------------------------
  // round(x, 1): nearest multiple of 0.1, ties to even, over exact reals
  // ---------------------------------------------------------------------

  function RoundHalfEven(x: real): (n: int)
    ensures -0.5 <= x - n as real <= 0.5
    ensures x == x.Floor as real ==> n == x.Floor
    ensures x - n as real == 0.5 || n as real - x == 0.5 ==> n % 2 == 0
  {
    var f := x.Floor;
    var d := x - f as real;
    if d < 0.5 then f
    else if d > 0.5 then f + 1
    else if f % 2 == 0 then f
    else f + 1
  }

  /** round(x, 1): the nearest tenth, within 0.05 of x; a tie goes to the even tenth. */
  function Round1(x: real): (r: real)
    ensures -0.05 <= x - r <= 0.05
    ensures (r * 10.0).Floor as real == r * 10.0
    ensures x * 10.0 - r * 10.0 == 0.5 || r * 10.0 - x * 10.0 == 0.5 ==> (r * 10.0).Floor % 2 == 0
  {
    RoundHalfEven(x * 10.0) as real / 10.0
  }

  /** Rounding to one decimal leaves a multiple of 0.5 unchanged. */
  lemma Round1OfHalves(k: int)
    ensures Round1(k as real / 2.0) == k as real / 2.0
  {
    var x := k as real / 2.0;
    assert x * 10.0 == (5 * k) as real;
    assert (x * 10.0).Floor == 5 * k;
  }

  // ---------------------------------------------------------------------
  // Closed forms of the loop counters
  // ---------------------------------------------------------------------

  function Horizon(months: int): nat
  {
    if months > 0 then months else 0
  }

  /** The label f"M{m}". */
  function MonthLabel(m: nat): string
  {
    "M" + DecimalString(m)
  }

  /** Salespeople in month m of the "large" forecast. */
  function SalespeopleAt(m: nat): int
    requires 1 <= m
  {
    InitialSalespeople + (m - 1) / 3
  }

  /** Sum of the salespeople of months 1..m. */
  function SalespeopleSum(m: nat): int
  {
    if m == 0 then 0 else SalespeopleSum(m - 1) + SalespeopleAt(m)
  }

  /** Cumulative "large" customers after month m (m == 0: the initial five). */
  function LargeCustomersAt(m: nat): real
  {
    InitialLargeCustomers + SalespeopleToLargeCustomerRatio * SalespeopleSum(m) as real
  }

  function LargeRevenueAt(m: nat): real
  {
    LargeCustomersAt(m) * RevenuePerLargeCustomer
  }

  function LargeRecordAt(m: nat): Record
    requires 1 <= m
  {
    LargeRecord(MonthLabel(m), SalespeopleAt(m), Round1(LargeCustomersAt(m)), LargeRevenueAt(m))
  }

  /** Cumulative "small_medium" customers after month m. */
  function SmbCustomersAt(m: nat): real
  {
    m as real * NewSmbCustomersPerMonth
  }

  function SmbRecordAt(m: nat): Record
    requires 1 <= m
  {
    SmbRecord(MonthLabel(m), Round1(SmbCustomersAt(m)), SmbCustomersAt(m) * RevenuePerSmbCustomer)
  }

  function LargeRows(n: nat): seq<Record>
  {
    seq(n, i requires 0 <= i < n => LargeRecordAt(i + 1))
  }

  function SmbRows(n: nat): seq<Record>
  {
    seq(n, i requires 0 <= i < n => SmbRecordAt(i + 1))
  }

  /** Each month appends one row to the table. */
  lemma TablesGrowByOneRow(n: nat)
    ensures LargeRows(n + 1) == LargeRows(n) + [LargeRecordAt(n + 1)]
    ensures SmbRows(n + 1) == SmbRows(n) + [SmbRecordAt(n + 1)]
  {
  }

  /** What generate_forecast returns for a classifier answer and a horizon. */
  function Forecast(answer: string, months: int): (r: Result<seq<Record>, ForecastError>)
    ensures r.Ok? <==> Contains(answer, "large") || Contains(answer, "small_medium")
    ensures r.Ok? ==> forall i :: 0 <= i < |r.value| ==>
      (r.value[i].LargeRecord? <==> Contains(answer, "large"))
  {
    if Contains(answer, "large") then Ok(LargeRows(Horizon(months)))
    else if Contains(answer, "small_medium") then Ok(SmbRows(Horizon(months)))
    else Err(UninterpretableQuery)
  }

  // ---------------------------------------------------------------------
  // generate_forecast, after the classifier has answered
  // ---------------------------------------------------------------------

  /** The "large" loop: the sales team grows every third month, customers follow the team. */
  method LargeForecast(months: int) returns (data: seq<Record>)
    ensures data == LargeRows(Horizon(months))
  {
    data := [];
    var largeCustomers := InitialLargeCustomers;
    var salespeople := InitialSalespeople;
    var month := 1;
    while month <= months
      invariant 1 <= month <= Horizon(months) + 1
      invariant month == 1 ==> salespeople == InitialSalespeople
      invariant month > 1 ==> salespeople == SalespeopleAt(month - 1)
      invariant largeCustomers == LargeCustomersAt(month - 1)
      invariant data == LargeRows(month - 1)
      decreases months - month
    {
      if month % 3 == 1 && month != 1 {
        salespeople := salespeople + 1;
      }
      if month > 1 {
        SalespeopleCadence(month);
      }
      var newLarge := salespeople as real * SalespeopleToLargeCustomerRatio;
      largeCustomers := largeCustomers + newLarge;
      var largeRevenue := largeCustomers * RevenuePerLargeCustomer;
      TablesGrowByOneRow(month - 1);
      data := data + [LargeRecord(MonthLabel(month), salespeople, Round1(largeCustomers), largeRevenue)];
      month := month + 1;
    }
  }

  /** The "small_medium" loop: a fixed number of new customers every month. */
  method SmbForecast(months: int) returns (data: seq<Record>)
    ensures data == SmbRows(Horizon(months))
  {
    data := [];
    var smbCustomers := 0.0;
    var month := 1;
    while month <= months
      invariant 1 <= month <= Horizon(months) + 1
      invariant smbCustomers == SmbCustomersAt(month - 1)
      invariant data == SmbRows(month - 1)
      decreases months - month
    {
      smbCustomers := smbCustomers + NewSmbCustomersPerMonth;
      var smbRevenue := smbCustomers * RevenuePerSmbCustomer;
      TablesGrowByOneRow(month - 1);
      data := data + [SmbRecord(MonthLabel(month), Round1(smbCustomers), smbRevenue)];
      month := month + 1;
    }
  }

  /** generate_forecast from the classifier's answer on: pick the branch, run its loop. */
  method GenerateForecast(answer: string, months: int) returns (r: Result<seq<Record>, ForecastError>)
    ensures r == Forecast(answer, months)
  {
    if Contains(answer, "large") {
      var data := LargeForecast(months);
      r := Ok(data);
    } else if Contains(answer, "small_medium") {
      var data := SmbForecast(months);
      r := Ok(data);
    } else {
      r := Err(UninterpretableQuery);
    }
  }

  /**
   * Each call starts again from the fixed constants, so nothing carries over
   * from one call to the next: two calls with the same inputs agree.
   */
  method GenerateForecastTwice(answer: string, months: int)
    returns (first: Result<seq<Record>, ForecastError>, second: Result<seq<Record>, ForecastError>)
    ensures first == second
  {
    first := GenerateForecast(answer, months);
    second := GenerateForecast(answer, months);
  }

  // ---------------------------------------------------------------------
  // Properties of the forecast
  // ---------------------------------------------------------------------

  /** The table has one row per month, labelled M1..Mn in order, all labels distinct. */
  lemma ForecastShape(answer: string, months: int)
    requires Forecast(answer, months).Ok?
    ensures var rows := Forecast(answer, months).value;
      |rows| == Horizon(months) &&
      (forall i :: 0 <= i < |rows| ==> rows[i].month == "M" + DecimalString(i + 1)) &&
      (forall i, j :: 0 <= i < j < |rows| ==> rows[i].month != rows[j].month)
  {
    var rows := Forecast(answer, months).value;
    forall i, j | 0 <= i < j < |rows|
      ensures rows[i].month != rows[j].month
    {
      DecimalStringInjective(i + 1, j + 1);
      assert rows[i].month[1..] == DecimalString(i + 1);
      assert rows[j].month[1..] == DecimalString(j + 1);
    }
  }

  /** No months, no rows — but the answer must still name a business unit. */
  lemma ForecastEmptyHorizon(answer: string, months: int)
    requires months <= 0
    ensures Forecast(answer, months).Ok? ==> Forecast(answer, months).value == []
    ensures Forecast(answer, months).Err? <==> !Contains(answer, "large") && !Contains(answer, "small_medium")
  {
  }

  /** "large" is tested first: it wins over "small_medium". */
  lemma DispatchLargeFirst(answer: string, months: int)
    requires Contains(answer, "large")
    ensures Forecast(answer, months).Ok?
    ensures forall row :: row in Forecast(answer, months).value ==> row.LargeRecord?
  {
  }

  lemma DispatchSmallMedium(answer: string, months: int)
    requires !Contains(answer, "large") && Contains(answer, "small_medium")
    ensures Forecast(answer, months).Ok?
    ensures forall row :: row in Forecast(answer, months).value ==> row.SmbRecord?
  {
  }

  /** An answer naming neither unit is an error, never a table. */
  lemma DispatchUninterpretable(answer: string, months: int)
    requires !Contains(answer, "large") && !Contains(answer, "small_medium")
    ensures Forecast(answer, months) == Err(UninterpretableQuery)
  {
  }

  /** An answer mentioning both units gives the "large" table. */
  lemma BothUnitsGiveLarge(months: int)
    ensures Forecast("large or small_medium", months) == Ok(LargeRows(Horizon(months)))
  {
    ContainsPrefix("large or small_medium", "large");
  }

  /** The classifier's bare answers select their own branch. */
  lemma BareAnswers(months: int)
    ensures Forecast("large", months) == Ok(LargeRows(Horizon(months)))
    ensures Forecast("small_medium", months) == Ok(SmbRows(Horizon(months)))
  {
    ContainsPrefix("large", "large");
    ContainsPrefix("small_medium", "small_medium");
    forall i: nat | i <= 12
      ensures !OccursAt("small_medium", "large", i)
    {
      // "small_medium" has no 'r', the third letter of "large"
      if i + 5 <= 12 {
        assert "small_medium"[i..i + 5][2] == "small_medium"[i + 2] != 'r';
      }
    }
  }

  /** Salespeople rise by one exactly at months 4, 7, 10, ... */
  lemma SalespeopleCadence(m: nat)
    requires 2 <= m
    ensures SalespeopleAt(m) == SalespeopleAt(m - 1) + (if m % 3 == 1 then 1 else 0)
  {
  }

  /** Salespeople never decrease. */
  lemma SalespeopleMonotone(m1: nat, m2: nat)
    requires 1 <= m1 <= m2
    ensures InitialSalespeople <= SalespeopleAt(m1) <= SalespeopleAt(m2)
  {
  }

  /** Closed form: for month m = 3q + r, the salespeople of months 1..m sum to 2m + 3q(q-1)/2 + rq. */
  lemma {:induction false} SalespeopleSumClosedForm(q: nat, r: nat)
    requires r < 3
    ensures 2 * SalespeopleSum(3 * q + r) == 4 * (3 * q + r) + 3 * q * (q - 1) + 2 * r * q
    decreases q, r
  {
    if r > 0 {
      // months 3q + 1 and 3q + 2 have 2 + q salespeople
      SalespeopleSumClosedForm(q, r - 1);
      assert (3 * q + r - 1) / 3 == q;
      assert 2 * r * q == 2 * (r - 1) * q + 2 * q;
    } else if q > 0 {
      // month 3q has 2 + (q - 1) + 1 salespeople: the hire of month 3q - 2 counts
      SalespeopleSumClosedForm(q - 1, 2);
      assert (3 * q - 1) / 3 == q - 1;
      assert 3 * q * (q - 1) == 3 * (q - 1) * (q - 2) + 6 * (q - 1);
    }
  }

  /** Every "large" customer count is a multiple of 0.5. */
  lemma LargeCustomersHalves(m: nat)
    ensures LargeCustomersAt(m) == (10 + 3 * SalespeopleSum(m)) as real / 2.0
  {
  }

  /** The "Total Customers" column shows the exact count: round(x, 1) changes nothing. */
  lemma LargeTotalCustomersExact(m: nat)
    requires 1 <= m
    ensures LargeRecordAt(m).totalCustomers == LargeCustomersAt(m)
    ensures LargeRecordAt(m).revenue == LargeRecordAt(m).totalCustomers * RevenuePerLargeCustomer
  {
    LargeCustomersHalves(m);
    Round1OfHalves(10 + 3 * SalespeopleSum(m));
  }

  /** "large" customers and revenue grow strictly every month. */
  lemma {:induction false} LargeStrictlyIncreasing(m1: nat, m2: nat)
    requires m1 < m2
    ensures LargeCustomersAt(m1) < LargeCustomersAt(m2)
    ensures LargeRevenueAt(m1) < LargeRevenueAt(m2)
    decreases m2 - m1
  {
    assert SalespeopleSum(m2) > SalespeopleSum(m2 - 1);
    if m1 < m2 - 1 {
      LargeStrictlyIncreasing(m1, m2 - 1);
    }
  }

  /** Month 1: two salespeople, 8.0 customers; month 4: three salespeople, 18.5 customers. */
  lemma LargeFirstMonths()
    ensures LargeRecordAt(1) == LargeRecord("M1", 2, 8.0, 132000.0)
    ensures LargeRecordAt(4) == LargeRecord("M4", 3, 18.5, 305250.0)
  {
    assert SalespeopleSum(4) == 9;
    Round1OfHalves(16);
    Round1OfHalves(37);
  }

  /** The precomputed funnel yield is exactly nine customers a month. */
  lemma NewSmbCustomersIsNine()
    ensures NewSmbCustomersPerMonth == 9.0
  {
  }

  /** "small_medium": 9m customers and 4500m revenue in month m, shown unrounded. */
  lemma SmbClosedForm(m: nat)
    requires 1 <= m
    ensures SmbRecordAt(m).totalCustomers == (9 * m) as real
    ensures SmbRecordAt(m).revenue == (4500 * m) as real
  {
    Round1OfHalves(18 * m);
  }

  /** Three months of "small_medium": 27.0 customers and 13500.0 revenue at the end. */
  lemma SmbThreeMonths()
    ensures SmbRows(3)[2] == SmbRecord("M3", 27.0, 13500.0)
  {
    SmbClosedForm(3);
  }
}

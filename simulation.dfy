/** The lost-revenue estimate of the calculator: five slider values feed a
    chain of multiplications that yields six daily, monthly and annual
    figures (the `results` derivation of `App` in App.tsx). Arithmetic is
    over exact reals. */
module Simulation {
  import opened Sliders

  /** Working days that turn one day's loss into a month's. */
  const WorkingDaysPerMonth: int := 24

  /** Months that turn one month's loss into a year's. */
  const MonthsPerYear: int := 12

  const CallsPerDaySlider: Slider := Slider(20, 1000, DefaultStep)
  const MissedRateSlider: Slider := Slider(10, 90, DefaultStep)
  const RetryRateSlider: Slider := Slider(10, 90, DefaultStep)
  const ConversionRateSlider: Slider := Slider(10, 90, DefaultStep)
  const AvgPriceSlider: Slider := Slider(100, 1500, 50)

  /** The five parameters; the three rates are percentages. */
  datatype SimulationInput = SimulationInput(
    callsPerDay: int,
    missedRate: int,
    retryRate: int,
    conversionRate: int,
    avgPrice: int)

  /** The values the application starts with. */
  const DefaultInput: SimulationInput := SimulationInput(100, 50, 75, 50, 500)

  /** Every parameter holds a value its range control can report. */
  predicate InDomain(i: SimulationInput) {
    && Admits(CallsPerDaySlider, i.callsPerDay)
    && Admits(MissedRateSlider, i.missedRate)
    && Admits(RetryRateSlider, i.retryRate)
    && Admits(ConversionRateSlider, i.conversionRate)
    && Admits(AvgPriceSlider, i.avgPrice)
  }

  datatype SimulationResult = SimulationResult(
    dailyMissedCalls: real,
    dailyLostCustomers: real,
    dailyLostAppointments: real,
    dailyLostRevenue: real,
    monthlyLostRevenue: real,
    annualLostRevenue: real)

  /** The estimate. The source validates nothing, so neither does this:
      it is total, and the domain appears only in the lemmas below. A year
      of loss is 288 days of loss: 24 working days in each of 12 months. */
  function Compute(i: SimulationInput): (r: SimulationResult)
    ensures r.annualLostRevenue == r.dailyLostRevenue * 288.0
  {
    var dailyMissedCalls := i.callsPerDay as real * (i.missedRate as real / 100.0);
    var lostCustomersRate := 1.0 - (i.retryRate as real / 100.0);
    var dailyLostCustomers := dailyMissedCalls * lostCustomersRate;
    var dailyLostAppointments := dailyLostCustomers * (i.conversionRate as real / 100.0);
    var dailyLostRevenue := dailyLostAppointments * i.avgPrice as real;
    var monthlyLostRevenue := dailyLostRevenue * WorkingDaysPerMonth as real;
    var annualLostRevenue := monthlyLostRevenue * MonthsPerYear as real;
    SimulationResult(
      dailyMissedCalls,
      dailyLostCustomers,
      dailyLostAppointments,
      dailyLostRevenue,
      monthlyLostRevenue,
      annualLostRevenue)
  }

  /** Each figure in closed form, as one product of the integer inputs over a
      power of ten: the chain of multiplications is exact. */
  lemma ClosedForm(i: SimulationInput)
    ensures Compute(i).dailyMissedCalls
         == (i.callsPerDay * i.missedRate) as real / 100.0
    ensures Compute(i).dailyLostCustomers
         == (i.callsPerDay * i.missedRate * (100 - i.retryRate)) as real / 10000.0
    ensures Compute(i).dailyLostAppointments
         == (i.callsPerDay * i.missedRate * (100 - i.retryRate) * i.conversionRate) as real / 1000000.0
    ensures Compute(i).dailyLostRevenue
         == (i.callsPerDay * i.missedRate * (100 - i.retryRate) * i.conversionRate * i.avgPrice) as real / 1000000.0
    ensures Compute(i).monthlyLostRevenue
         == (24 * (i.callsPerDay * i.missedRate * (100 - i.retryRate) * i.conversionRate * i.avgPrice)) as real / 1000000.0
    ensures Compute(i).annualLostRevenue
         == (288 * (i.callsPerDay * i.missedRate * (100 - i.retryRate) * i.conversionRate * i.avgPrice)) as real / 1000000.0
  {
  }

  /** Monthly loss is 24 working days of daily loss, annual loss 12 months of
      monthly loss, so a year is 288 days of loss; for every input. */
  lemma ScalingLaws(i: SimulationInput)
    ensures Compute(i).monthlyLostRevenue == Compute(i).dailyLostRevenue * 24.0
    ensures Compute(i).annualLostRevenue == Compute(i).monthlyLostRevenue * 12.0
    ensures Compute(i).annualLostRevenue == Compute(i).dailyLostRevenue * 288.0
  {
  }

  /** y is x scaled by a positive factor f, so it is positive too. */
  lemma ScaledPositive(x: real, f: real, y: real)
    requires 0.0 < x && 0.0 < f && y == x * f
    ensures 0.0 < y
  {
  }

  /** y is x scaled by a factor f below one, so it is smaller than x. */
  lemma ScaledDown(x: real, f: real, y: real)
    requires 0.0 < x && f < 1.0 && y == x * f
    ensures y < x
  {
    ScaledPositive(x, 1.0 - f, x - y);
  }

  lemma MissedCallsPositive(i: SimulationInput)
    requires InDomain(i)
    ensures 0.0 < Compute(i).dailyMissedCalls
  {
    var r := Compute(i);
    ScaledPositive(i.callsPerDay as real, i.missedRate as real / 100.0, r.dailyMissedCalls);
  }

  lemma LostCustomersPositive(i: SimulationInput)
    requires InDomain(i)
    ensures 0.0 < Compute(i).dailyLostCustomers
  {
    var r := Compute(i);
    MissedCallsPositive(i);
    ScaledPositive(r.dailyMissedCalls, 1.0 - i.retryRate as real / 100.0, r.dailyLostCustomers);
  }

  lemma LostAppointmentsPositive(i: SimulationInput)
    requires InDomain(i)
    ensures 0.0 < Compute(i).dailyLostAppointments
  {
    var r := Compute(i);
    LostCustomersPositive(i);
    ScaledPositive(r.dailyLostCustomers, i.conversionRate as real / 100.0, r.dailyLostAppointments);
  }

  lemma MissedCallsBelowCalls(i: SimulationInput)
    requires InDomain(i)
    ensures Compute(i).dailyMissedCalls < i.callsPerDay as real
  {
    var r := Compute(i);
    ScaledDown(i.callsPerDay as real, i.missedRate as real / 100.0, r.dailyMissedCalls);
  }

  lemma LostCustomersBelowMissedCalls(i: SimulationInput)
    requires InDomain(i)
    ensures Compute(i).dailyLostCustomers < Compute(i).dailyMissedCalls
  {
    var r := Compute(i);
    MissedCallsPositive(i);
    ScaledDown(r.dailyMissedCalls, 1.0 - i.retryRate as real / 100.0, r.dailyLostCustomers);
  }

  lemma LostAppointmentsBelowLostCustomers(i: SimulationInput)
    requires InDomain(i)
    ensures Compute(i).dailyLostAppointments < Compute(i).dailyLostCustomers
  {
    var r := Compute(i);
    LostCustomersPositive(i);
    ScaledDown(r.dailyLostCustomers, i.conversionRate as real / 100.0, r.dailyLostAppointments);
  }

  /** Within the domain the funnel narrows strictly at every stage. */
  lemma FunnelOrdering(i: SimulationInput)
    requires InDomain(i)
    ensures 0.0 < Compute(i).dailyLostAppointments
    ensures Compute(i).dailyLostAppointments < Compute(i).dailyLostCustomers
    ensures Compute(i).dailyLostCustomers < Compute(i).dailyMissedCalls
    ensures Compute(i).dailyMissedCalls < i.callsPerDay as real
  {
    LostAppointmentsPositive(i);
    LostAppointmentsBelowLostCustomers(i);
    LostCustomersBelowMissedCalls(i);
    MissedCallsBelowCalls(i);
  }

  /** Within the domain every one of the six figures is strictly positive. */
  lemma Positivity(i: SimulationInput)
    requires InDomain(i)
    ensures Compute(i).dailyMissedCalls > 0.0
    ensures Compute(i).dailyLostCustomers > 0.0
    ensures Compute(i).dailyLostAppointments > 0.0
    ensures Compute(i).dailyLostRevenue > 0.0
    ensures Compute(i).monthlyLostRevenue > 0.0
    ensures Compute(i).annualLostRevenue > 0.0
  {
    var r := Compute(i);
    FunnelOrdering(i);
    ScaledPositive(r.dailyLostAppointments, i.avgPrice as real, r.dailyLostRevenue);
  }

  /** a loses at least as much as b: at least as many calls, missed calls,
      conversions and as high a price, and no more customers who call back. */
  predicate LosesAtLeast(a: SimulationInput, b: SimulationInput) {
    && a.callsPerDay >= b.callsPerDay
    && a.missedRate >= b.missedRate
    && a.retryRate <= b.retryRate
    && a.conversionRate >= b.conversionRate
    && a.avgPrice >= b.avgPrice
  }

  /** Product of five non-negative integers, monotone in each argument. */
  lemma ProductMonotone(a1: int, a2: int, a3: int, a4: int, a5: int,
                        b1: int, b2: int, b3: int, b4: int, b5: int)
    requires 0 <= b1 <= a1 && 0 <= b2 <= a2 && 0 <= b3 <= a3 && 0 <= b4 <= a4 && 0 <= b5 <= a5
    ensures b1 * b2 <= a1 * a2
    ensures b1 * b2 * b3 <= a1 * a2 * a3
    ensures b1 * b2 * b3 * b4 <= a1 * a2 * a3 * a4
    ensures b1 * b2 * b3 * b4 * b5 <= a1 * a2 * a3 * a4 * a5
  {
    MulMonotone(b1, b2, a1, a2);
    MulMonotone(b1 * b2, b3, a1 * a2, a3);
    MulMonotone(b1 * b2 * b3, b4, a1 * a2 * a3, a4);
    MulMonotone(b1 * b2 * b3 * b4, b5, a1 * a2 * a3 * a4, a5);
  }

  lemma MulMonotone(x: int, y: int, x': int, y': int)
    requires 0 <= x <= x' && 0 <= y <= y'
    ensures x * y <= x' * y'
  {
    assert x * y <= x' * y;
    assert x' * y <= x' * y';
  }

  /** Raising a loss-driving input, or lowering the retry rate, never lowers
      any of the six figures (on inputs with non-negative factors, which the
      domain guarantees). */
  lemma LossMonotone(a: SimulationInput, b: SimulationInput)
    requires InDomain(a) && InDomain(b) && LosesAtLeast(a, b)
    ensures Compute(b).dailyMissedCalls <= Compute(a).dailyMissedCalls
    ensures Compute(b).dailyLostCustomers <= Compute(a).dailyLostCustomers
    ensures Compute(b).dailyLostAppointments <= Compute(a).dailyLostAppointments
    ensures Compute(b).dailyLostRevenue <= Compute(a).dailyLostRevenue
    ensures Compute(b).monthlyLostRevenue <= Compute(a).monthlyLostRevenue
    ensures Compute(b).annualLostRevenue <= Compute(a).annualLostRevenue
  {
    var (a1, a2, a3, a4, a5) := (a.callsPerDay, a.missedRate, 100 - a.retryRate, a.conversionRate, a.avgPrice);
    var (b1, b2, b3, b4, b5) := (b.callsPerDay, b.missedRate, 100 - b.retryRate, b.conversionRate, b.avgPrice);
    ClosedForm(a);
    ClosedForm(b);
    ProductMonotone(a1, a2, a3, a4, a5, b1, b2, b3, b4, b5);
    QuotientMonotone(b1 * b2, a1 * a2, 100.0);
    QuotientMonotone(b1 * b2 * b3, a1 * a2 * a3, 10000.0);
    QuotientMonotone(b1 * b2 * b3 * b4, a1 * a2 * a3 * a4, 1000000.0);
    QuotientMonotone(b1 * b2 * b3 * b4 * b5, a1 * a2 * a3 * a4 * a5, 1000000.0);
    QuotientMonotone(288 * (b1 * b2 * b3 * b4 * b5), 288 * (a1 * a2 * a3 * a4 * a5), 1000000.0);
    ScalingLaws(a);
    ScalingLaws(b);
  }

  lemma QuotientMonotone(x: int, y: int, d: real)
    requires x <= y && 0.0 < d
    ensures x as real / d <= y as real / d
  {
  }

  /** Revenue figures do not decrease as the average price rises. */
  lemma RevenueMonotoneInPrice(i: SimulationInput, price: int)
    requires InDomain(i) && Admits(AvgPriceSlider, price) && i.avgPrice <= price
    ensures Compute(i).dailyLostRevenue <= Compute(i.(avgPrice := price)).dailyLostRevenue
    ensures Compute(i).monthlyLostRevenue <= Compute(i.(avgPrice := price)).monthlyLostRevenue
    ensures Compute(i).annualLostRevenue <= Compute(i.(avgPrice := price)).annualLostRevenue
  {
    LossMonotone(i.(avgPrice := price), i);
  }

  /** Revenue figures do not increase as the retry rate rises. */
  lemma RevenueAntitoneInRetry(i: SimulationInput, retry: int)
    requires InDomain(i) && Admits(RetryRateSlider, retry) && i.retryRate <= retry
    ensures Compute(i.(retryRate := retry)).dailyLostRevenue <= Compute(i).dailyLostRevenue
    ensures Compute(i.(retryRate := retry)).monthlyLostRevenue <= Compute(i).monthlyLostRevenue
    ensures Compute(i.(retryRate := retry)).annualLostRevenue <= Compute(i).annualLostRevenue
  {
    LossMonotone(i, i.(retryRate := retry));
  }

  /** The domain's least-loss and greatest-loss corners. */
  const MinimumLossInput: SimulationInput := SimulationInput(20, 10, 90, 10, 100)
  const MaximumLossInput: SimulationInput := SimulationInput(1000, 90, 10, 90, 1500)

  /** Every input on the sliders loses at least as much as the least-loss
      corner and at most as much as the greatest-loss corner. */
  lemma LossBounds(i: SimulationInput)
    requires InDomain(i)
    ensures InDomain(MinimumLossInput) && InDomain(MaximumLossInput)
    ensures 576.0 <= Compute(i).annualLostRevenue <= 314928000.0
    ensures 2.0 <= Compute(i).dailyLostRevenue <= 1093500.0
  {
    assert InDomain(MinimumLossInput) && InDomain(MaximumLossInput);
    LossMonotone(i, MinimumLossInput);
    LossMonotone(MaximumLossInput, i);
  }

  /** The defaults yield 50 missed calls, 12.5 lost customers, 6.25 lost
      appointments and 3125, 75000 and 900000 of lost revenue. */
  lemma DefaultScenario()
    ensures InDomain(DefaultInput)
    ensures Compute(DefaultInput)
         == SimulationResult(50.0, 12.5, 6.25, 3125.0, 75000.0, 900000.0)
  {
  }

  /** The least-loss corner yields 2, 0.2, 0.02, 2, 48 and 576. */
  lemma MinimumLossScenario()
    ensures InDomain(MinimumLossInput)
    ensures Compute(MinimumLossInput)
         == SimulationResult(2.0, 0.2, 0.02, 2.0, 48.0, 576.0)
  {
  }

  /** With calls, conversion rate and price fixed, the corner with the fewest
      missed calls and most call-backs loses strictly less on every figure
      than the corner with the most missed calls and fewest call-backs. */
  lemma BoundaryComparison(i: SimulationInput)
    requires InDomain(i)
    ensures var low := Compute(i.(missedRate := 10, retryRate := 90));
            var high := Compute(i.(missedRate := 90, retryRate := 10));
            && low.dailyMissedCalls < high.dailyMissedCalls
            && low.dailyLostCustomers < high.dailyLostCustomers
            && low.dailyLostAppointments < high.dailyLostAppointments
            && low.dailyLostRevenue < high.dailyLostRevenue
            && low.monthlyLostRevenue < high.monthlyLostRevenue
            && low.annualLostRevenue < high.annualLostRevenue
  {
    var low := Compute(i.(missedRate := 10, retryRate := 90));
    var high := Compute(i.(missedRate := 90, retryRate := 10));
    var calls, converted := i.callsPerDay as real, i.conversionRate as real / 100.0;
    var reached := calls * converted;
    ScaledPositive(calls, converted, reached);
    assert low.dailyLostAppointments == 0.01 * reached;
    assert high.dailyLostAppointments == 0.81 * reached;
    var revenue := reached * i.avgPrice as real;
    ScaledPositive(reached, i.avgPrice as real, revenue);
    assert low.dailyLostRevenue == 0.01 * revenue;
    assert high.dailyLostRevenue == 0.81 * revenue;
  }
}

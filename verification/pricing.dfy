/** The ROI calculator: projected revenue from three slider values and the
    return on the annual cost of a plan. Arithmetic is over exact reals. */
module Pricing {

  datatype Plan = Basic | Pro | Enterprise

  /** The monthly price of each plan in the `plans` table. */
  function Price(p: Plan): (price: nat)
    ensures 29 <= price <= 299
  {
    match p
    case Basic => 29
    case Pro => 99
    case Enterprise => 299
  }

  /** What a plan costs per year; never zero, so the ROI quotient is always defined. */
  function PlanCost(p: Plan): (cost: real)
    ensures cost >= 348.0
  {
    (Price(p) * 12) as real
  }

  /** Revenue per month: visitors converting at `rate` percent, each order worth `orderValue`. */
  function MonthlyRevenue(visitors: real, rate: real, orderValue: real): (r: real)
    ensures 0.0 <= visitors && 0.0 <= rate && 0.0 <= orderValue ==> 0.0 <= r
    ensures visitors == 0.0 || rate == 0.0 || orderValue == 0.0 ==> r == 0.0
  {
    ProductNonNegative(visitors, rate);
    ProductNonNegative(visitors * rate / 100.0, orderValue);
    (visitors * rate / 100.0) * orderValue
  }

  /** A year is twelve equal months: the annual figure is zero exactly when
      the monthly one is, and never below it once the inputs are non-negative. */
  function AnnualRevenue(visitors: real, rate: real, orderValue: real): (r: real)
    ensures r == 0.0 <==> MonthlyRevenue(visitors, rate, orderValue) == 0.0
    ensures 0.0 <= visitors && 0.0 <= rate && 0.0 <= orderValue ==>
              0.0 <= MonthlyRevenue(visitors, rate, orderValue) <= r
  {
    MonthlyRevenue(visitors, rate, orderValue) * 12.0
  }

  lemma ProductNonNegative(x: real, y: real)
    ensures 0.0 <= x && 0.0 <= y ==> 0.0 <= x * y
  {
  }

  /** ROI in percent of the plan's annual cost. Its sign is the sign of the
      annual profit, and it is the revenue-to-cost ratio less one hundred percent. */
  function Roi(annual: real, p: Plan): (roi: real)
    ensures roi > 0.0 <==> annual > PlanCost(p)
    ensures roi == 0.0 <==> annual == PlanCost(p)
    ensures roi == annual / PlanCost(p) * 100.0 - 100.0
  {
    ((annual - PlanCost(p)) / PlanCost(p)) * 100.0
  }

  /** Everything the results panel shows for one setting of the inputs. */
  datatype Quote = Quote(monthly: real, annual: real, planCost: real, roi: real)

  function MakeQuote(visitors: real, rate: real, orderValue: real, p: Plan): (q: Quote)
    ensures q.annual == 12.0 * q.monthly
    ensures q.planCost == 12.0 * (Price(p) as real) && q.planCost > 0.0
    ensures q.roi > 0.0 <==> q.annual > q.planCost
  {
    var annual := AnnualRevenue(visitors, rate, orderValue);
    Quote(MonthlyRevenue(visitors, rate, orderValue), annual, PlanCost(p), Roi(annual, p))
  }

  /** The sign shown before the ROI figure. */
  function RoiPrefix(roi: real): (prefix: string)
    ensures prefix == "+" <==> roi > 0.0
    ensures prefix == "" || prefix == "+"
  {
    if roi > 0.0 then "+" else ""
  }

  /** A "+" appears exactly when a year's revenue exceeds a year of the plan. */
  lemma PlusShownIffProfit(visitors: real, rate: real, orderValue: real, p: Plan)
    ensures RoiPrefix(MakeQuote(visitors, rate, orderValue, p).roi) == "+"
        <==> AnnualRevenue(visitors, rate, orderValue) > 12.0 * (Price(p) as real)
  {
  }

  /** The initial sliders (1000 visitors, 2.5 %, order value 100, Pro plan). */
  lemma DefaultQuote()
    ensures var q := MakeQuote(1000.0, 2.5, 100.0, Pro);
            && q.monthly == 2500.0 && q.annual == 30000.0 && q.planCost == 1188.0
            && q.roi == 28812.0 / 1188.0 * 100.0
            && 2425.25 < q.roi < 2425.26
  {
  }

  /** Raising one factor of a product of non-negative factors never lowers it. */
  lemma ProductMonotone(a: real, a': real, b: real)
    requires 0.0 <= a <= a' && 0.0 <= b
    ensures a * b <= a' * b
  {
  }

  /** With non-negative inputs, monthly revenue does not decrease when any of
      the three sliders moves up. */
  lemma MonthlyRevenueMonotone(v: real, v': real, c: real, c': real, a: real, a': real)
    requires 0.0 <= v <= v' && 0.0 <= c <= c' && 0.0 <= a <= a'
    ensures MonthlyRevenue(v, c, a) <= MonthlyRevenue(v', c', a')
  {
    ProductMonotone(v, v', c);
    ProductMonotone(c, c', v');
    assert v * c <= v' * c == c * v' <= c' * v' == v' * c';
    var x, x' := v * c / 100.0, v' * c' / 100.0;
    assert 0.0 <= x <= x';
    calc {
      MonthlyRevenue(v, c, a);
    ==
      x * a;
    <= { ProductMonotone(x, x', a); }
      x' * a;
    == { assert x' * a == a * x'; }
      a * x';
    <= { ProductMonotone(a, a', x'); }
      a' * x';
    == { assert a' * x' == x' * a'; }
      MonthlyRevenue(v', c', a');
    }
  }

  /** The slider ranges: visitors 100..100000, rate 0.1..10 %, order value 10..1000. */
  predicate InSliderRange(visitors: real, rate: real, orderValue: real) {
    100.0 <= visitors <= 100000.0 && 0.1 <= rate <= 10.0 && 10.0 <= orderValue <= 1000.0
  }

  /** Anywhere on the sliders the projected monthly revenue is at least 1. */
  lemma RevenuePositiveOnSliders(visitors: real, rate: real, orderValue: real)
    requires InSliderRange(visitors, rate, orderValue)
    ensures MonthlyRevenue(visitors, rate, orderValue) >= 1.0
  {
    MonthlyRevenueMonotone(100.0, visitors, 0.1, rate, 10.0, orderValue);
    assert MonthlyRevenue(100.0, 0.1, 10.0) == 1.0;
  }
}

/** Pricing of the second generation (js/app-v2.js): the figures of
    `calculateTotals` (subtotal, cost, the percent-else-amount discount, the total
    clamped at 0, the margin and its rounded percentage) and the figures of the
    margin dashboard, which are taken over the undiscounted price and count a
    zero quantity as one. Money is an exact real number. */
module PricingV2 {
  import opened Common
  import opened Cart
  import opened Margin
  import PricingV1

  /** What the second generation copies into a cart entry besides id and
      quantity: the client price, the optional unit cost and the zero-margin flag. */
  datatype Service = Service(name: string, price: real, cost: Option<real>, zeroMargin: bool)

  /** `item.cost || 0`. */
  function CostOf(s: Service): real {
    match s.cost
    case Some(v) => v
    case None => 0.0
  }

  /** `item.price * item.quantity`. */
  function LinePrice(e: Entry<Service>): real {
    e.item.price * (e.quantity as real)
  }

  /** `(item.cost || 0) * item.quantity`. */
  function LineCost(e: Entry<Service>): real {
    CostOf(e.item) * (e.quantity as real)
  }

  function Subtotal(cart: seq<Entry<Service>>): (r: real)
    ensures cart == [] ==> r == 0.0
  {
    Sum(cart, LinePrice)
  }

  function TotalCost(cart: seq<Entry<Service>>): (r: real)
    ensures cart == [] ==> r == 0.0
  {
    Sum(cart, LineCost)
  }

  /** `total > 0 ? Math.round((margin / total) * 100) : 0`, shared by
      `calculateTotals` and the dashboard. */
  function MarginPercent(margin: real, base: real): (r: int)
    ensures base <= 0.0 ==> r == 0
    ensures base > 0.0 ==> (r as real) - 0.5 <= margin / base * 100.0 < (r as real) + 0.5
  {
    if base > 0.0 then Round(margin / base * 100.0) else 0
  }

  /** The six figures of `calculateTotals`, stored with a saved calculation. */
  datatype Totals = Totals(subtotal: real, discount: real, total: real, totalCost: real, totalMargin: real, marginPercent: int)

  /** `calculateTotals`: the discount rule of the second generation keeps the raw
      amount (a negative one included) when the percent is not positive, both here
      and on screen. */
  function CalculateTotals(cart: seq<Entry<Service>>, d: DiscountInput): (t: Totals)
    ensures t.total >= 0.0 && t.total >= t.subtotal - t.discount
  {
    var s := Subtotal(cart);
    var disc := PricingV1.CalculateDiscount(s, d);
    var total := PricingV1.Total(s, disc);
    var margin := total - TotalCost(cart);
    Totals(s, disc, total, TotalCost(cart), margin, MarginPercent(margin, total))
  }

  // ---------------------------------------------------------------- the dashboard

  /** `item.quantity || 1`: a zero quantity counts as one. */
  function DashboardQuantity(q: int): int {
    if q == 0 then 1 else q
  }

  /** `(item.price || 0) * (item.quantity || 1)`. */
  function DashPrice(e: Entry<Service>): real {
    e.item.price * (DashboardQuantity(e.quantity) as real)
  }

  /** `(item.cost || 0) * (item.quantity || 1)`. */
  function DashCost(e: Entry<Service>): real {
    CostOf(e.item) * (DashboardQuantity(e.quantity) as real)
  }

  predicate HasZeroMargin(cart: seq<Entry<Service>>) {
    exists k :: 0 <= k < |cart| && cart[k].item.zeroMargin
  }

  /** The figures the margin dashboard shows for a non-empty cart. */
  datatype Dashboard = Dashboard(totalPrice: real, totalCost: real, totalMargin: real, marginPercent: int, hasZeroMargin: bool)

  /** What `updateMarginDashboard` accumulates over the cart and derives from it. */
  function DashboardOf(cart: seq<Entry<Service>>): Dashboard {
    var p := Sum(cart, DashPrice);
    var c := Sum(cart, DashCost);
    Dashboard(p, c, p - c, MarginPercent(p - c, p), HasZeroMargin(cart))
  }

  // ---------------------------------------------------------------- properties of the totals

  /** The subtotal and the cost are the sums over the cart; the discount is the
      percent share, or else the raw amount; the total is never negative; a discount within the subtotal is exactly what
      separates total and subtotal, and a larger one leaves 0; the margin is the
      total less the cost; the percentage is the rounded share of the margin in the
      total, or 0 when nothing is left to pay. */
  lemma TotalsProperties(cart: seq<Entry<Service>>, d: DiscountInput)
    ensures var t := CalculateTotals(cart, d);
      && t.subtotal == Subtotal(cart)
      && t.totalCost == TotalCost(cart)
      && (d.percent > 0.0 ==> t.discount == t.subtotal * d.percent / 100.0)
      && (d.percent <= 0.0 ==> t.discount == d.amount)
      && t.total >= 0.0
      && (0.0 <= t.discount <= t.subtotal ==> t.total + t.discount == t.subtotal)
      && (t.discount >= t.subtotal ==> t.total == 0.0)
      && t.totalMargin == t.total - t.totalCost
      && (t.total <= 0.0 ==> t.marginPercent == 0)
      && (t.total > 0.0 ==> (t.marginPercent as real) - 0.5 <= t.totalMargin / t.total * 100.0 < (t.marginPercent as real) + 0.5)
  {
    var t := CalculateTotals(cart, d);
    PricingV1.TotalProperties(t.subtotal, t.discount);
  }

  /** A rounded margin share never exceeds 100 while the margin is at most its
      base, and is never negative while the margin is not. */
  lemma MarginPercentRange(margin: real, base: real)
    requires base > 0.0
    ensures margin <= base ==> MarginPercent(margin, base) <= 100
    ensures margin >= 0.0 ==> MarginPercent(margin, base) >= 0
  {
    var x := margin / base;
    assert x * base == margin;
    assert (1.0 - x) * base == base - margin;
  }

  /** With non-negative unit costs and positive quantities the saved margin
      percentage is at most 100; it is at least 0 while the cost does not exceed
      what the client pays. */
  lemma TotalsMarginPercentRange(cart: seq<Entry<Service>>, d: DiscountInput)
    requires Positive(cart)
    requires forall k :: 0 <= k < |cart| ==> CostOf(cart[k].item) >= 0.0
    ensures CalculateTotals(cart, d).marginPercent <= 100
    ensures TotalCost(cart) <= CalculateTotals(cart, d).total ==> CalculateTotals(cart, d).marginPercent >= 0
  {
    var t := CalculateTotals(cart, d);
    forall k | 0 <= k < |cart| ensures LineCost(cart[k]) >= 0.0 {
      assert CostOf(cart[k].item) * (cart[k].quantity as real) >= 0.0;
    }
    SumNonNegative(cart, LineCost);
    if t.total > 0.0 {
      MarginPercentRange(t.totalMargin, t.total);
    }
  }

  /** Unlike the first generation's screen, a negative amount with no percent
      is used as it is, both in the saved totals and on screen, and raises the
      total above the subtotal. */
  lemma NegativeAmountRaisesTotal(cart: seq<Entry<Service>>, d: DiscountInput)
    requires d.percent <= 0.0 && d.amount < 0.0 && Subtotal(cart) >= 0.0
    ensures CalculateTotals(cart, d).discount == d.amount
    ensures CalculateTotals(cart, d).total == Subtotal(cart) - d.amount > Subtotal(cart)
  {
  }

  // ---------------------------------------------------------------- the dashboard against the totals

  /** With positive quantities the dashboard's price and cost are the subtotal and
      cost of `calculateTotals`; with no discount and a non-negative subtotal its
      margin and percentage are those of the saved totals too. */
  lemma DashboardMatchesTotals(cart: seq<Entry<Service>>)
    requires Positive(cart)
    ensures DashboardOf(cart).totalPrice == Subtotal(cart)
    ensures DashboardOf(cart).totalCost == TotalCost(cart)
    ensures Subtotal(cart) >= 0.0 ==>
      var t := CalculateTotals(cart, NoDiscount);
      DashboardOf(cart).totalMargin == t.totalMargin && DashboardOf(cart).marginPercent == t.marginPercent
  {
    SumCongruent(cart, DashPrice, LinePrice);
    SumCongruent(cart, DashCost, LineCost);
  }

  /** A discount separates the two percentages: one unit-cost-400 service at 1000
      taken twice with 10% off saves a subtotal of 2000, a discount of 200, a total
      of 1800, a cost of 800, a margin of 1000 and 56% (medium), while the
      dashboard shows a margin of 1200 and 60%. */
  lemma DiscountedMarginExample(name: string)
    ensures var cart := [Entry("s", Service(name, 1000.0, Some(400.0), false), 2)];
      var t := CalculateTotals(cart, DiscountInput(10.0, 0.0));
      var b := DashboardOf(cart);
      && t == Totals(2000.0, 200.0, 1800.0, 800.0, 1000.0, 56)
      && MarginLevel(t.marginPercent as real) == Medium
      && b == Dashboard(2000.0, 800.0, 1200.0, 60, false)
  {
    var e := Entry("s", Service(name, 1000.0, Some(400.0), false), 2);
    SumSingle(e, LinePrice);
    SumSingle(e, LineCost);
    SumSingle(e, DashPrice);
    SumSingle(e, DashCost);
    assert Round(1000.0 / 1800.0 * 100.0) == 56;
    assert Round(1200.0 / 2000.0 * 100.0) == 60;
  }

  /** A zero quantity (possible only in a cart restored from elsewhere) counts as
      one on the dashboard but as nothing in the totals. */
  lemma ZeroQuantityExample(name: string)
    ensures var cart := [Entry("s", Service(name, 500.0, None, true), 0)];
      && DashboardOf(cart).totalPrice == 500.0
      && DashboardOf(cart).hasZeroMargin
      && CalculateTotals(cart, NoDiscount).subtotal == 0.0
  {
    var e := Entry("s", Service(name, 500.0, None, true), 0);
    SumSingle(e, LinePrice);
    SumSingle(e, DashPrice);
    assert [e][0].item.zeroMargin;
  }
}

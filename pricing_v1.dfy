/** Pricing of the first generation (js/app.js): subtotal, the two discount rules
    (the saved one of `calculateDiscount` and the on-screen one of `updateTotals`)
    and the total clamped at 0. Money is an exact real number. */
module PricingV1 {
  import opened Common
  import opened Cart

  /** What the first generation copies into a cart entry besides id and quantity. */
  datatype Service = Service(name: string, price: real)

  /** `item.price * item.quantity`. */
  function LineTotal(e: Entry<Service>): real {
    e.item.price * (e.quantity as real)
  }

  /** `calculateSubtotal`: the sum of price times quantity; an empty cart gives 0. */
  function Subtotal(cart: seq<Entry<Service>>): (r: real)
    ensures cart == [] ==> r == 0.0
  {
    Sum(cart, LineTotal)
  }

  /** `calculateDiscount`: the percent share of the subtotal when the percent is
      positive, otherwise the raw amount, even a negative one. */
  function CalculateDiscount(subtotal: real, d: DiscountInput): real {
    if d.percent > 0.0 then subtotal * (d.percent / 100.0) else d.amount
  }

  /** The discount shown by `updateTotals`: as above, except that an amount is
      used only when it is positive, and no discount is 0. */
  function ScreenDiscount(subtotal: real, d: DiscountInput): real {
    if d.percent > 0.0 then subtotal * (d.percent / 100.0)
    else if d.amount > 0.0 then d.amount
    else 0.0
  }

  /** `calculateTotal` (and the total of `updateTotals`): `Math.max(0, subtotal - discount)`. */
  function Total(subtotal: real, discount: real): real {
    Max(0.0, subtotal - discount)
  }

  /** The three figures a saved calculation stores. */
  datatype Totals = Totals(subtotal: real, discount: real, total: real)

  /** `calculateSubtotal`, `calculateDiscount` and `calculateTotal` together: the
      percent share, or else the raw amount, comes off the subtotal, and the total
      never drops below 0. */
  function SavedTotals(cart: seq<Entry<Service>>, d: DiscountInput): (t: Totals)
    ensures t.subtotal == Subtotal(cart)
    ensures d.percent > 0.0 ==> t.discount == t.subtotal * d.percent / 100.0
    ensures d.percent <= 0.0 ==> t.discount == d.amount
    ensures t.total >= 0.0 && t.total >= t.subtotal - t.discount
    ensures 0.0 <= t.discount <= t.subtotal ==> t.total + t.discount == t.subtotal
  {
    var s := Subtotal(cart);
    var disc := CalculateDiscount(s, d);
    Totals(s, disc, Total(s, disc))
  }

  /** The figures `updateTotals` puts on screen: those of a saved calculation
      unless the percent is not positive and the amount is negative, in which
      case no discount is shown and the total is the subtotal (at least 0). */
  function ScreenTotals(cart: seq<Entry<Service>>, d: DiscountInput): (t: Totals)
    ensures t.subtotal == Subtotal(cart)
    ensures d.percent > 0.0 || d.amount >= 0.0 ==> t == SavedTotals(cart, d)
    ensures d.percent <= 0.0 && d.amount < 0.0 ==> t.discount == 0.0 && t.total == Max(0.0, t.subtotal)
    ensures t.total >= 0.0
  {
    var s := Subtotal(cart);
    var disc := ScreenDiscount(s, d);
    DiscountsAgree(s, d);
    Totals(s, disc, Total(s, disc))
  }

  // ---------------------------------------------------------------- discount rules

  /** The percent share is used whenever the percent is positive (so a percent
      overrides an amount); otherwise the raw amount is returned. */
  lemma CalculateDiscountRule(subtotal: real, d: DiscountInput)
    ensures d.percent > 0.0 ==> CalculateDiscount(subtotal, d) == subtotal * d.percent / 100.0
    ensures d.percent <= 0.0 ==> CalculateDiscount(subtotal, d) == d.amount
  {
  }

  /** The on-screen discount equals the saved one exactly when the percent is
      positive or the amount is not negative. */
  lemma DiscountsAgree(subtotal: real, d: DiscountInput)
    ensures ScreenDiscount(subtotal, d) == CalculateDiscount(subtotal, d) <==> (d.percent > 0.0 || d.amount >= 0.0)
  {
  }

  /** The on-screen discount is never negative on a non-negative subtotal. */
  lemma ScreenDiscountNonNegative(subtotal: real, d: DiscountInput)
    requires subtotal >= 0.0
    ensures ScreenDiscount(subtotal, d) >= 0.0
  {
    if d.percent > 0.0 {
      assert subtotal * (d.percent / 100.0) >= 0.0;
    }
  }

  /** With a negative amount and no percent, the saved total is larger than the
      subtotal while the screen shows the subtotal itself. */
  lemma NegativeAmountSavedTotal(cart: seq<Entry<Service>>, d: DiscountInput)
    requires d.percent <= 0.0 && d.amount < 0.0 && Subtotal(cart) >= 0.0
    ensures SavedTotals(cart, d).total == Subtotal(cart) - d.amount > Subtotal(cart)
    ensures ScreenTotals(cart, d).total == Subtotal(cart)
  {
  }

  // ---------------------------------------------------------------- total

  /** The total is never negative; a discount within the subtotal is exactly what
      separates total and subtotal; a larger discount leaves a total of 0. */
  lemma TotalProperties(subtotal: real, discount: real)
    ensures Total(subtotal, discount) >= 0.0
    ensures Total(subtotal, discount) >= subtotal - discount
    ensures 0.0 <= discount <= subtotal ==> Total(subtotal, discount) + discount == subtotal
    ensures discount >= subtotal ==> Total(subtotal, discount) == 0.0
  {
  }

  /** A percent in [0, 100] never discounts more than the subtotal, so the total
      is the subtotal minus the discount; a percent above 100 brings the total
      to 0 (the percent is not clamped). */
  lemma PercentDiscountWithinSubtotal(subtotal: real, p: real)
    requires subtotal >= 0.0
    ensures 0.0 < p <= 100.0 ==>
      var disc := CalculateDiscount(subtotal, DiscountInput(p, 0.0));
      0.0 <= disc <= subtotal && Total(subtotal, disc) + disc == subtotal
    ensures p > 100.0 ==> Total(subtotal, CalculateDiscount(subtotal, DiscountInput(p, 0.0))) == 0.0
  {
    var disc := CalculateDiscount(subtotal, DiscountInput(p, 0.0));
    var f := p / 100.0;
    if 0.0 < p <= 100.0 {
      assert disc == subtotal * f;
      ScaleWithin(subtotal, f);
      assert 0.0 <= disc <= subtotal;
      TotalProperties(subtotal, disc);
    } else if p > 100.0 {
      assert disc == subtotal * f;
      ScaleBeyond(subtotal, f);
      assert disc >= subtotal;
      TotalProperties(subtotal, disc);
    }
  }

  /** A non-negative amount scaled by a factor in [0, 1] stays within [0, amount]. */
  lemma ScaleWithin(x: real, f: real)
    requires x >= 0.0 && 0.0 <= f <= 1.0
    ensures 0.0 <= x * f <= x
  {
    assert x * f + x * (1.0 - f) == x;
    NonNegativeProduct(x, f);
    NonNegativeProduct(x, 1.0 - f);
  }

  /** A non-negative amount scaled by a factor above 1 is at least the amount. */
  lemma ScaleBeyond(x: real, f: real)
    requires x >= 0.0 && f > 1.0
    ensures x * f >= x
  {
    assert x * f == x + x * (f - 1.0);
    NonNegativeProduct(x, f - 1.0);
  }

  /** The product of two non-negative numbers is non-negative. */
  lemma NonNegativeProduct(x: real, y: real)
    requires x >= 0.0 && y >= 0.0
    ensures x * y >= 0.0
  {
  }

  // ---------------------------------------------------------------- subtotal and the cart

  /** Adding `q` of a line item raises the subtotal by the line total of `q`
      units of the entry it lands in: the entry already in the cart (whose copied
      price is kept), or the new one. */
  lemma SubtotalAdded(cart: seq<Entry<Service>>, offer: Offer<Service>, q: int)
    ensures Has(cart, offer.id) ==> var e := cart[IndexOf(cart, offer.id)];
      Subtotal(Added(cart, offer, q)) == Subtotal(cart) + LineTotal(e.(quantity := q))
    ensures !Has(cart, offer.id) ==>
      Subtotal(Added(cart, offer, q)) == Subtotal(cart) + LineTotal(Entry(offer.id, offer.item, q))
  {
    if Has(cart, offer.id) {
      SubtotalMerged(cart, offer, q);
    } else {
      SumAdded(cart, offer, q, LineTotal);
    }
  }

  /** The merge case of `SubtotalAdded`. */
  lemma SubtotalMerged(cart: seq<Entry<Service>>, offer: Offer<Service>, q: int)
    requires Has(cart, offer.id)
    ensures var e := cart[IndexOf(cart, offer.id)];
      Subtotal(Added(cart, offer, q)) == Subtotal(cart) + LineTotal(e.(quantity := q))
  {
    LineTotalGrows(cart[IndexOf(cart, offer.id)], q);
    SumMergedAdditive(cart, offer, q, LineTotal);
  }

  /** Growing an entry by `q` adds the line total of `q` units to its line total. */
  lemma LineTotalGrows(e: Entry<Service>, q: int)
    ensures LineTotal(e.(quantity := e.quantity + q)) == LineTotal(e) + LineTotal(e.(quantity := q))
  {
    assert ((e.quantity + q) as real) == (e.quantity as real) + (q as real);
  }

  /** With unique ids, removing an id takes exactly its line total off the subtotal. */
  lemma SubtotalRemoved(cart: seq<Entry<Service>>, id: string)
    requires UniqueIds(cart) && Has(cart, id)
    ensures var i := IndexOf(cart, id);
      Subtotal(Removed(cart, id)) == Subtotal(cart) - LineTotal(cart[i])
  {
    SumRemoved(cart, id, LineTotal);
  }

  /** Non-negative prices and positive quantities give a non-negative subtotal. */
  lemma SubtotalNonNegative(cart: seq<Entry<Service>>)
    requires Positive(cart)
    requires forall k :: 0 <= k < |cart| ==> cart[k].item.price >= 0.0
    ensures Subtotal(cart) >= 0.0
  {
    forall k | 0 <= k < |cart| ensures LineTotal(cart[k]) >= 0.0 {
      assert cart[k].item.price * (cart[k].quantity as real) >= 0.0;
    }
    SumNonNegative(cart, LineTotal);
  }
}

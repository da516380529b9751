/** The state of the second generation's calculator (`ShootingCalculatorV2` in
    js/app-v2.js): as in the first generation, plus the in-cart quantity buttons,
    the margin dashboard, and saved calculations that keep the discount inputs
    and the six figures of `calculateTotals`. */
module AppV2 {
  import opened Common
  import opened Cart
  import opened Archive
  import opened PricingV2

  /** What a saved calculation of this generation holds besides id, date and
      client: the cart, the discount inputs and the totals. */
  datatype Snapshot = Snapshot(items: seq<Entry<Service>>, discount: DiscountInput, totals: Totals)

  /** The calculation `saveCalculation` builds. */
  function SavedRecord(id: int, date: string, client: Client, cart: seq<Entry<Service>>, d: DiscountInput): (r: Record<Snapshot>)
    ensures r.id == id && r.snapshot.items == cart && r.snapshot.discount == d && r.client.name != ""
    ensures r.snapshot.totals.subtotal == Subtotal(cart) && r.snapshot.totals.total >= 0.0
  {
    Record(id, date, SavedClient(client), Snapshot(cart, d, CalculateTotals(cart, d)))
  }

  /** Saving a non-empty cart and loading the same id at once gives back the
      cart, the discount inputs and the client details (an empty name becoming
      the default name). */
  lemma SaveThenLoad(history: seq<Record<Snapshot>>, id: int, date: string, client: Client,
                     cart: seq<Entry<Service>>, d: DiscountInput)
    ensures var found := Find(Pushed(history, SavedRecord(id, date, client, cart, d)), id);
      && found.Some?
      && found.value.snapshot.items == cart
      && found.value.snapshot.discount == d
      && found.value.client == SavedClient(client)
  {
    FindPushed(history, SavedRecord(id, date, client, cart, d));
  }

  class CalculatorV2 {
    var cart: seq<Entry<Service>>
    var history: seq<Record<Snapshot>>
    /** The client form: name, phone, project and notes. */
    var client: Client
    /** The two discount inputs, already parsed (an empty input is 0). */
    var discount: DiscountInput

    /** At most one entry per id, every quantity at least 1, in the cart and in
        every saved cart; at most 50 saved calculations. */
    ghost predicate Valid()
      reads this
    {
      && ValidCart(cart)
      && |history| <= Cap
      && forall k :: 0 <= k < |history| ==> ValidCart(history[k].snapshot.items)
    }

    constructor()
      ensures Valid()
      ensures cart == [] && history == [] && client == EmptyClient && discount == NoDiscount
    {
      cart := [];
      history := [];
      client := EmptyClient;
      discount := NoDiscount;
    }

    /** `addToCart` with the quantity counter's value `q` (at least 1). */
    method AddToCart(offer: Offer<Service>, q: int)
      requires Valid() && q >= 1
      modifies this
      ensures Valid()
      ensures cart == Added(old(cart), offer, q)
      ensures history == old(history) && client == old(client) && discount == old(discount)
    {
      var i := IndexOf(cart, offer.id);
      if i != -1 {
        cart := cart[i := cart[i].(quantity := cart[i].quantity + q)];
      } else {
        cart := cart + [Entry(offer.id, offer.item, q)];
      }
      AddKeepsValid(old(cart), offer, q);
    }

    /** `updateCartQuantity`: the entry with `id` gets `max(1, quantity + delta)`;
        an absent id changes nothing. */
    method UpdateCartQuantity(id: string, delta: int)
      requires Valid()
      modifies this
      ensures Valid()
      ensures cart == WithQuantityDelta(old(cart), id, delta)
      ensures history == old(history) && client == old(client) && discount == old(discount)
    {
      var i := IndexOf(cart, id);
      if i == -1 {
        return;
      }
      QuantityDeltaKeepsValid(cart, id, delta);
      cart := cart[i := cart[i].(quantity := ChangeQuantity(cart[i].quantity, delta))];
    }

    /** `removeFromCart`. */
    method RemoveFromCart(id: string)
      requires Valid()
      modifies this
      ensures Valid()
      ensures cart == Removed(old(cart), id)
      ensures history == old(history) && client == old(client) && discount == old(discount)
    {
      RemovedKeepsValid(cart, id);
      cart := Removed(cart, id);
    }

    /** `clearCart`, with the answer to the confirmation dialog as `confirmed`;
        an empty cart asks nothing. */
    method ClearCart(confirmed: bool)
      requires Valid()
      modifies this
      ensures Valid()
      ensures cart == (if confirmed then [] else old(cart))
      ensures history == old(history) && client == old(client) && discount == old(discount)
    {
      if |cart| == 0 {
        return;
      }
      if confirmed {
        cart := [];
      }
    }

    /** `updateDiscount`: typing into one discount input empties the other. */
    method UpdateDiscount(percentField: bool, value: real)
      requires Valid()
      modifies this
      ensures Valid()
      ensures discount == (if percentField then DiscountInput(value, 0.0) else DiscountInput(0.0, value))
      ensures cart == old(cart) && history == old(history) && client == old(client)
    {
      if percentField {
        discount := DiscountInput(value, 0.0);
      } else {
        discount := DiscountInput(0.0, value);
      }
    }

    /** The user filling in the client form. */
    method EditClient(c: Client)
      requires Valid()
      modifies this
      ensures Valid()
      ensures client == c
      ensures cart == old(cart) && history == old(history) && discount == old(discount)
    {
      client := c;
    }

    /** The totals loop of `updateMarginDashboard`: nothing is shown for an empty
        cart; otherwise price and cost are accumulated over the cart, a zero
        quantity counting as one, and the zero-margin warning is raised when any
        entry is flagged. */
    method MarginDashboard() returns (d: Option<Dashboard>)
      ensures cart == [] ==> d == None
      ensures cart != [] ==> d == Some(DashboardOf(cart))
    {
      if |cart| == 0 {
        return None;
      }
      var totalPrice := 0.0;
      var totalCost := 0.0;
      var hasZeroMargin := false;
      var i := 0;
      while i < |cart|
        invariant 0 <= i <= |cart|
        invariant totalPrice == Sum(cart[..i], DashPrice)
        invariant totalCost == Sum(cart[..i], DashCost)
        invariant hasZeroMargin <==> HasZeroMargin(cart[..i])
      {
        var item := cart[i];
        assert cart[..i + 1][..i] == cart[..i];
        assert cart[..i + 1][i] == item;
        totalPrice := totalPrice + DashPrice(item);
        totalCost := totalCost + DashCost(item);
        if item.item.zeroMargin {
          hasZeroMargin := true;
        }
        i := i + 1;
      }
      assert cart[..i] == cart;
      var totalMargin := totalPrice - totalCost;
      var marginPercent := if totalPrice > 0.0 then Round(totalMargin / totalPrice * 100.0) else 0;
      return Some(Dashboard(totalPrice, totalCost, totalMargin, marginPercent, hasZeroMargin));
    }

    /** `saveCalculation` at time stamp `id` and date `date`: nothing happens for
        an empty cart; otherwise the calculation goes to the front and the oldest
        one is dropped beyond 50. */
    method SaveCalculation(id: int, date: string) returns (saved: bool)
      requires Valid()
      modifies this
      ensures Valid()
      ensures saved <==> cart != []
      ensures saved ==> history == Pushed(old(history), SavedRecord(id, date, client, cart, discount))
      ensures !saved ==> history == old(history)
      ensures cart == old(cart) && client == old(client) && discount == old(discount)
    {
      if |cart| == 0 {
        return false;
      }
      var calculation := SavedRecord(id, date, client, cart, discount);
      history := [calculation] + history;
      if |history| > Cap {
        history := history[..|history| - 1];
      }
      return true;
    }

    /** `loadCalculation`: an unknown id changes nothing; otherwise the client
        form, the discount inputs and the cart become those of the newest
        calculation with that id. */
    method LoadCalculation(id: int) returns (found: bool)
      requires Valid()
      modifies this
      ensures Valid()
      ensures found <==> Find(history, id).Some?
      ensures found ==> var r := Find(history, id).value;
        cart == r.snapshot.items && client == r.client && discount == r.snapshot.discount
      ensures !found ==> cart == old(cart) && client == old(client) && discount == old(discount)
      ensures history == old(history)
    {
      var entry := Find(history, id);
      if entry.None? {
        return false;
      }
      client := entry.value.client;
      discount := entry.value.snapshot.discount;
      cart := entry.value.snapshot.items;
      return true;
    }
  }
}

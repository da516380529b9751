/** The state of the first generation's calculator (`ShootingCalculator` in
    js/app.js): the cart, the calculation history, the client form and the two
    discount inputs, with the operations that change them. The history lives in
    memory instead of browser storage; the save time stamp and date are
    parameters. */
module AppV1 {
  import opened Common
  import opened Cart
  import opened Archive
  import opened PricingV1

  /** What a saved calculation of this generation holds besides id, date and
      client: a copy of the cart and the three figures. */
  datatype Snapshot = Snapshot(cart: seq<Entry<Service>>, totals: Totals)

  /** The calculation `saveCalculation` builds from a cart, the client form and
      the discount inputs. */
  function SavedRecord(id: int, date: string, client: Client, cart: seq<Entry<Service>>, d: DiscountInput): (r: Record<Snapshot>)
    ensures r.id == id && r.snapshot.cart == cart && r.client.name != ""
    ensures r.snapshot.totals.total >= 0.0
  {
    Record(id, date, SavedClient(client), Snapshot(cart, SavedTotals(cart, d)))
  }

  /** Saving a non-empty cart and loading the same id at once gives back that
      cart, the client details (an empty name becoming the default name) and the
      totals. */
  lemma SaveThenLoad(history: seq<Record<Snapshot>>, id: int, date: string, client: Client,
                     cart: seq<Entry<Service>>, d: DiscountInput)
    ensures var found := Find(Pushed(history, SavedRecord(id, date, client, cart, d)), id);
      && found.Some?
      && found.value.snapshot.cart == cart
      && found.value.client == SavedClient(client)
      && found.value.snapshot.totals == SavedTotals(cart, d)
  {
    FindPushed(history, SavedRecord(id, date, client, cart, d));
  }

  class Calculator {
    var cart: seq<Entry<Service>>
    var history: seq<Record<Snapshot>>
    /** The client form: name, phone, project and notes. */
    var client: Client
    /** The two discount inputs, already parsed (an empty input is 0). */
    var discount: DiscountInput

    /** At most one entry per id, every quantity at least 1, in the cart and in
        every saved cart; at most 50 saved calculations. */
    ghost predicate Valid()
      reads this
    {
      && ValidCart(cart)
      && |history| <= Cap
      && forall k :: 0 <= k < |history| ==> ValidCart(history[k].snapshot.cart)
    }

    constructor()
      ensures Valid()
      ensures cart == [] && history == [] && client == EmptyClient && discount == NoDiscount
    {
      cart := [];
      history := [];
      client := EmptyClient;
      discount := NoDiscount;
    }

    /** `addToCart` with the quantity counter's value `q` (at least 1, as the
        counter is clamped at 1). */
    method AddToCart(offer: Offer<Service>, q: int)
      requires Valid() && q >= 1
      modifies this
      ensures Valid()
      ensures cart == Added(old(cart), offer, q)
      ensures history == old(history) && client == old(client) && discount == old(discount)
    {
      var i := IndexOf(cart, offer.id);
      if i != -1 {
        cart := cart[i := cart[i].(quantity := cart[i].quantity + q)];
      } else {
        cart := cart + [Entry(offer.id, offer.item, q)];
      }
      AddKeepsValid(old(cart), offer, q);
    }

    /** `removeFromCart`. */
    method RemoveFromCart(id: string)
      requires Valid()
      modifies this
      ensures Valid()
      ensures cart == Removed(old(cart), id)
      ensures history == old(history) && client == old(client) && discount == old(discount)
    {
      RemovedKeepsValid(cart, id);
      cart := Removed(cart, id);
    }

    /** `clearCart`, with the answer to the confirmation dialog as `confirmed`;
        an empty cart asks nothing. */
    method ClearCart(confirmed: bool)
      requires Valid()
      modifies this
      ensures Valid()
      ensures cart == (if confirmed then [] else old(cart))
      ensures history == old(history) && client == old(client) && discount == old(discount)
    {
      if |cart| == 0 {
        return;
      }
      if confirmed {
        cart := [];
      }
    }

    /** `updateDiscount`: typing into one discount input empties the other. */
    method UpdateDiscount(percentField: bool, value: real)
      requires Valid()
      modifies this
      ensures Valid()
      ensures discount == (if percentField then DiscountInput(value, 0.0) else DiscountInput(0.0, value))
      ensures cart == old(cart) && history == old(history) && client == old(client)
    {
      if percentField {
        discount := DiscountInput(value, 0.0);
      } else {
        discount := DiscountInput(0.0, value);
      }
    }

    /** The user filling in the client form. */
    method EditClient(c: Client)
      requires Valid()
      modifies this
      ensures Valid()
      ensures client == c
      ensures cart == old(cart) && history == old(history) && discount == old(discount)
    {
      client := c;
    }

    /** `saveCalculation` at time stamp `id` and date `date`: nothing happens for
        an empty cart; otherwise the calculation goes to the front and the oldest
        one is dropped beyond 50. */
    method SaveCalculation(id: int, date: string) returns (saved: bool)
      requires Valid()
      modifies this
      ensures Valid()
      ensures saved <==> cart != []
      ensures saved ==> history == Pushed(old(history), SavedRecord(id, date, client, cart, discount))
      ensures !saved ==> history == old(history)
      ensures cart == old(cart) && client == old(client) && discount == old(discount)
    {
      if |cart| == 0 {
        return false;
      }
      var calculation := SavedRecord(id, date, client, cart, discount);
      history := [calculation] + history;
      if |history| > Cap {
        history := history[..|history| - 1];
      }
      return true;
    }

    /** `loadCalculation`: an unknown id changes nothing; otherwise the cart and
        the client form become those of the newest calculation with that id. The
        discount inputs are not restored. */
    method LoadCalculation(id: int) returns (found: bool)
      requires Valid()
      modifies this
      ensures Valid()
      ensures found <==> Find(history, id).Some?
      ensures found ==> cart == Find(history, id).value.snapshot.cart && client == Find(history, id).value.client
      ensures !found ==> cart == old(cart) && client == old(client)
      ensures history == old(history) && discount == old(discount)
    {
      var entry := Find(history, id);
      if entry.None? {
        return false;
      }
      cart := entry.value.snapshot.cart;
      client := entry.value.client;
      return true;
    }
  }
}

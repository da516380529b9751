/** The cart store shared by both calculator generations: an ordered sequence of
    entries keyed by the line-item id. `T` is the generation's own item payload
    (name, price and, in the second generation, cost fields). This module
    specifies the operations on values; each generation's class applies them to
    its `cart` field. */
module Cart {
  import opened Common

  /** A line item as handed to `addToCart`: its id and what is copied into the cart. */
  datatype Offer<T> = Offer(id: string, item: T)

  /** A cart entry: the copied line item plus its quantity. */
  datatype Entry<T> = Entry(id: string, item: T, quantity: int)

  /** At most one entry per id. */
  ghost predicate UniqueIds<T>(cart: seq<Entry<T>>) {
    forall i, j :: 0 <= i < j < |cart| ==> cart[i].id != cart[j].id
  }

  /** Every quantity is at least 1. */
  ghost predicate Positive<T>(cart: seq<Entry<T>>) {
    forall i :: 0 <= i < |cart| ==> cart[i].quantity >= 1
  }

  ghost predicate ValidCart<T>(cart: seq<Entry<T>>) {
    UniqueIds(cart) && Positive(cart)
  }

  predicate Has<T>(cart: seq<Entry<T>>, id: string) {
    exists k :: 0 <= k < |cart| && cart[k].id == id
  }

  /** `cart.findIndex(item => item.id === id)`: the first index holding `id`, or -1. */
  function IndexOf<T>(cart: seq<Entry<T>>, id: string): (r: int)
    ensures -1 <= r < |cart|
    ensures r == -1 <==> !Has(cart, id)
    ensures r >= 0 ==> cart[r].id == id && forall k :: 0 <= k < r ==> cart[k].id != id
  {
    if cart == [] then -1
    else if cart[0].id == id then 0
    else
      var r := IndexOf(cart[1..], id);
      assert forall k :: 1 <= k < |cart| ==> cart[k] == cart[1..][k - 1];
      if r == -1 then -1 else r + 1
  }

  /** `addToCart`: merge `q` into the entry with the same id, or append a new entry. */
  function Added<T>(cart: seq<Entry<T>>, offer: Offer<T>, q: int): seq<Entry<T>> {
    var i := IndexOf(cart, offer.id);
    if i >= 0 then cart[i := cart[i].(quantity := cart[i].quantity + q)]
    else cart + [Entry(offer.id, offer.item, q)]
  }

  /** `this.cart.filter(item => item.id !== id)`. */
  function Removed<T>(cart: seq<Entry<T>>, id: string): seq<Entry<T>> {
    if cart == [] then []
    else (if cart[0].id == id then [] else [cart[0]]) + Removed(cart[1..], id)
  }

  /** The quantity counter next to a catalog line: `Math.max(1, current + delta)`. */
  function ChangeQuantity(current: int, delta: int): (r: int)
    ensures r >= 1
    ensures current + delta >= 1 ==> r == current + delta
    ensures current + delta < 1 ==> r == 1
  {
    if current + delta >= 1 then current + delta else 1
  }

  /** `updateCartQuantity`: the first entry with `id` gets `max(1, quantity + delta)`;
      an absent id leaves the cart as it is. */
  function WithQuantityDelta<T>(cart: seq<Entry<T>>, id: string, delta: int): seq<Entry<T>> {
    var i := IndexOf(cart, id);
    if i < 0 then cart
    else cart[i := cart[i].(quantity := ChangeQuantity(cart[i].quantity, delta))]
  }

  /** Total quantity held under `id` (0 when absent). */
  function QuantityOf<T>(cart: seq<Entry<T>>, id: string): int {
    if cart == [] then 0
    else QuantityOf(cart[..|cart| - 1], id) + (if cart[|cart| - 1].id == id then cart[|cart| - 1].quantity else 0)
  }

  /** `cart.reduce((sum, item) => sum + f(item), 0)`: a left fold of `f` over the cart. */
  function Sum<T>(cart: seq<Entry<T>>, f: Entry<T> -> real): real {
    if cart == [] then 0.0 else Sum(cart[..|cart| - 1], f) + f(cart[|cart| - 1])
  }

  // ---------------------------------------------------------------- add

  /** Adding an id already present grows that entry by `q`; nothing else moves. */
  lemma AddMerges<T>(cart: seq<Entry<T>>, offer: Offer<T>, q: int)
    requires Has(cart, offer.id)
    ensures var r := Added(cart, offer, q); var i := IndexOf(cart, offer.id);
      && |r| == |cart|
      && r[i] == Entry(cart[i].id, cart[i].item, cart[i].quantity + q)
      && forall k :: 0 <= k < |cart| && k != i ==> r[k] == cart[k]
  {
  }

  /** Adding a new id appends exactly one entry with quantity `q` at the end. */
  lemma AddAppends<T>(cart: seq<Entry<T>>, offer: Offer<T>, q: int)
    requires !Has(cart, offer.id)
    ensures Added(cart, offer, q) == cart + [Entry(offer.id, offer.item, q)]
  {
  }

  /** Adding keeps at most one entry per id and, for `q >= 1`, every quantity at least 1. */
  lemma AddKeepsValid<T>(cart: seq<Entry<T>>, offer: Offer<T>, q: int)
    requires ValidCart(cart) && q >= 1
    ensures ValidCart(Added(cart, offer, q))
    ensures Has(Added(cart, offer, q), offer.id)
  {
    var i := IndexOf(cart, offer.id);
    var r := Added(cart, offer, q);
    var k := if i >= 0 then i else |cart|;
    assert r[k].id == offer.id;
  }

  lemma {:induction false} QuantityOfAppend<T>(a: seq<Entry<T>>, b: seq<Entry<T>>, id: string)
    ensures QuantityOf(a + b, id) == QuantityOf(a, id) + QuantityOf(b, id)
  {
    if b == [] {
      assert a + b == a;
    } else {
      assert (a + b)[..|a + b| - 1] == a + b[..|b| - 1];
      QuantityOfAppend(a, b[..|b| - 1], id);
    }
  }

  lemma {:induction false} QuantityOfUpdate<T>(cart: seq<Entry<T>>, i: nat, e: Entry<T>, id: string)
    requires i < |cart|
    ensures QuantityOf(cart[i := e], id) ==
      QuantityOf(cart, id) - (if cart[i].id == id then cart[i].quantity else 0) + (if e.id == id then e.quantity else 0)
  {
    var n := |cart|;
    if i == n - 1 {
      assert cart[i := e][..n - 1] == cart[..n - 1];
    } else {
      assert cart[i := e][..n - 1] == cart[..n - 1][i := e];
      QuantityOfUpdate(cart[..n - 1], i, e, id);
    }
  }

  /** Adding `q` under an id raises the quantity held under that id by exactly `q`
      and leaves every other id's quantity alone. */
  lemma AddQuantity<T>(cart: seq<Entry<T>>, offer: Offer<T>, q: int, other: string)
    ensures QuantityOf(Added(cart, offer, q), offer.id) == QuantityOf(cart, offer.id) + q
    ensures other != offer.id ==> QuantityOf(Added(cart, offer, q), other) == QuantityOf(cart, other)
  {
    var i := IndexOf(cart, offer.id);
    if i >= 0 {
      QuantityOfUpdate(cart, i, cart[i].(quantity := cart[i].quantity + q), offer.id);
      QuantityOfUpdate(cart, i, cart[i].(quantity := cart[i].quantity + q), other);
    } else {
      var e := Entry(offer.id, offer.item, q);
      QuantityOfAppend(cart, [e], offer.id);
      QuantityOfAppend(cart, [e], other);
      assert [e][..0] == [];
    }
  }

  /** Adding the same line item twice, with `q1` and then `q2`, leaves one entry
      for it whose quantity is the sum, never two rows. */
  lemma AddTwice<T>(cart: seq<Entry<T>>, offer: Offer<T>, q1: int, q2: int)
    requires !Has(cart, offer.id)
    ensures var r := Added(Added(cart, offer, q1), offer, q2);
      && r == cart + [Entry(offer.id, offer.item, q1 + q2)]
  {
    var once := Added(cart, offer, q1);
    assert once == cart + [Entry(offer.id, offer.item, q1)];
    assert IndexOf(once, offer.id) == |cart| by {
      assert once[|cart|].id == offer.id;
    }
  }

  // ---------------------------------------------------------------- update quantity

  /** The updated entry gets `max(1, old + delta)` and every other entry is unchanged;
      an absent id changes nothing. */
  lemma QuantityDeltaShape<T>(cart: seq<Entry<T>>, id: string, delta: int)
    ensures var r := WithQuantityDelta(cart, id, delta);
      && |r| == |cart|
      && (!Has(cart, id) ==> r == cart)
      && (Has(cart, id) ==> var i := IndexOf(cart, id);
            && r[i] == cart[i].(quantity := if cart[i].quantity + delta >= 1 then cart[i].quantity + delta else 1)
            && forall k :: 0 <= k < |cart| && k != i ==> r[k] == cart[k])
  {
  }

  /** Whatever the delta, a valid cart stays valid: quantities never drop below 1
      and no entry is added or removed. */
  lemma QuantityDeltaKeepsValid<T>(cart: seq<Entry<T>>, id: string, delta: int)
    requires ValidCart(cart)
    ensures ValidCart(WithQuantityDelta(cart, id, delta))
  {
  }

  /** An entry of quantity 3 updated by -1000 holds quantity 1 and is not removed. */
  lemma QuantityFloorExample<T>(e: Entry<T>)
    requires e.quantity == 3
    ensures WithQuantityDelta([e], e.id, -1000) == [e.(quantity := 1)]
  {
  }

  // ---------------------------------------------------------------- remove

  /** Filtering distributes over concatenation. */
  lemma {:induction false} RemovedAppend<T>(a: seq<Entry<T>>, b: seq<Entry<T>>, id: string)
    ensures Removed(a + b, id) == Removed(a, id) + Removed(b, id)
  {
    if a == [] {
      assert a + b == b;
    } else {
      assert (a + b)[1..] == a[1..] + b;
      RemovedAppend(a[1..], b, id);
    }
  }

  /** Removing keeps exactly the entries whose id differs: none with `id` is left
      and every other entry stays, in its original order. */
  lemma {:induction false} RemovedShape<T>(cart: seq<Entry<T>>, id: string)
    ensures !Has(Removed(cart, id), id)
    ensures |Removed(cart, id)| <= |cart|
    ensures forall k :: 0 <= k < |cart| && cart[k].id != id ==>
      Removed(cart, id) == Removed(cart[..k], id) + [cart[k]] + Removed(cart[k + 1..], id)
  {
    if cart != [] {
      RemovedShape(cart[1..], id);
    }
    forall k | 0 <= k < |cart| && cart[k].id != id
      ensures Removed(cart, id) == Removed(cart[..k], id) + [cart[k]] + Removed(cart[k + 1..], id)
    {
      assert cart == cart[..k] + [cart[k]] + cart[k + 1..];
      RemovedAppend(cart[..k] + [cart[k]], cart[k + 1..], id);
      RemovedAppend(cart[..k], [cart[k]], id);
      assert Removed([cart[k]], id) == [cart[k]] by {
        assert [cart[k]][1..] == [];
      }
    }
  }

  /** A cart without `id` is left as it is. */
  lemma {:induction false} RemovedAbsent<T>(cart: seq<Entry<T>>, id: string)
    requires !Has(cart, id)
    ensures Removed(cart, id) == cart
  {
    if cart != [] {
      assert !Has(cart[1..], id) by {
        assert forall k :: 0 <= k < |cart| - 1 ==> cart[1..][k] == cart[k + 1];
      }
      RemovedAbsent(cart[1..], id);
    }
  }

  /** With unique ids, removing drops exactly the one matching entry. */
  lemma RemovedUnique<T>(cart: seq<Entry<T>>, id: string)
    requires UniqueIds(cart) && Has(cart, id)
    ensures var i := IndexOf(cart, id);
      Removed(cart, id) == cart[..i] + cart[i + 1..]
  {
    var i := IndexOf(cart, id);
    NoneBefore(cart, id);
    UniqueTail(cart, i);
    assert cart == cart[..i] + [cart[i]] + cart[i + 1..];
    RemovedSplit(cart[..i], cart[i], cart[i + 1..], id);
  }

  /** Removing the id of the one entry between two parts without it leaves the two parts. */
  lemma RemovedSplit<T>(before: seq<Entry<T>>, x: Entry<T>, after: seq<Entry<T>>, id: string)
    requires !Has(before, id) && x.id == id && !Has(after, id)
    ensures Removed(before + [x] + after, id) == before + after
  {
    RemovedAppend(before + [x], after, id);
    RemovedAppend(before, [x], id);
    assert Removed([x], id) == [] by {
      assert [x][1..] == [];
    }
    RemovedAbsent(before, id);
    RemovedAbsent(after, id);
  }

  /** No entry before the first match has the id. */
  lemma NoneBefore<T>(cart: seq<Entry<T>>, id: string)
    requires Has(cart, id)
    ensures !Has(cart[..IndexOf(cart, id)], id)
  {
    var before := cart[..IndexOf(cart, id)];
    forall k | 0 <= k < |before| ensures before[k].id != id {
      assert before[k] == cart[k];
    }
  }

  /** With unique ids, no entry after position `i` has the id of entry `i`. */
  lemma UniqueTail<T>(cart: seq<Entry<T>>, i: int)
    requires UniqueIds(cart) && 0 <= i < |cart|
    ensures !Has(cart[i + 1..], cart[i].id)
  {
    var after := cart[i + 1..];
    forall k | 0 <= k < |after| ensures after[k].id != cart[i].id {
      assert after[k] == cart[i + 1 + k];
    }
  }

  /** Every entry that survives a removal was in the cart. */
  lemma {:induction false} RemovedSubset<T>(cart: seq<Entry<T>>, id: string)
    ensures forall e :: e in Removed(cart, id) ==> e in cart && e.id != id
  {
    if cart != [] {
      RemovedSubset(cart[1..], id);
    }
  }

  /** Removing keeps a valid cart valid. */
  lemma {:induction false} RemovedKeepsValid<T>(cart: seq<Entry<T>>, id: string)
    requires ValidCart(cart)
    ensures ValidCart(Removed(cart, id))
  {
    if cart != [] {
      RemovedKeepsValid(cart[1..], id);
      RemovedSubset(cart[1..], id);
      var rest := Removed(cart[1..], id);
      assert forall e :: e in rest ==> e in cart[1..];
      assert forall k :: 0 <= k < |rest| ==> rest[k].id != cart[0].id by {
        forall k | 0 <= k < |rest| ensures rest[k].id != cart[0].id {
          assert rest[k] in cart[1..];
          var j :| 0 <= j < |cart[1..]| && cart[1..][j] == rest[k];
          assert cart[j + 1] == rest[k];
        }
      }
    }
  }

  // ---------------------------------------------------------------- sums

  /** The sum over a one-entry cart is that entry's term. */
  lemma SumSingle<T>(e: Entry<T>, f: Entry<T> -> real)
    ensures Sum([e], f) == f(e)
  {
    assert [e][..0] == [];
  }

  /** A sum over two carts placed end to end is the sum of the two sums. */
  lemma {:induction false} SumAppend<T>(a: seq<Entry<T>>, b: seq<Entry<T>>, f: Entry<T> -> real)
    ensures Sum(a + b, f) == Sum(a, f) + Sum(b, f)
  {
    if b == [] {
      assert a + b == a;
    } else {
      assert (a + b)[..|a + b| - 1] == a + b[..|b| - 1];
      SumAppend(a, b[..|b| - 1], f);
    }
  }

  /** Replacing one entry changes the sum by the difference of its two terms. */
  lemma {:induction false} SumUpdate<T>(cart: seq<Entry<T>>, i: nat, e: Entry<T>, f: Entry<T> -> real)
    requires i < |cart|
    ensures Sum(cart[i := e], f) == Sum(cart, f) - f(cart[i]) + f(e)
  {
    var n := |cart|;
    if i == n - 1 {
      assert cart[i := e][..n - 1] == cart[..n - 1];
    } else {
      assert cart[i := e][..n - 1] == cart[..n - 1][i := e];
      SumUpdate(cart[..n - 1], i, e, f);
    }
  }

  /** A sum of non-negative terms is non-negative. */
  lemma {:induction false} SumNonNegative<T>(cart: seq<Entry<T>>, f: Entry<T> -> real)
    requires forall k :: 0 <= k < |cart| ==> f(cart[k]) >= 0.0
    ensures Sum(cart, f) >= 0.0
  {
    if cart != [] {
      SumNonNegative(cart[..|cart| - 1], f);
    }
  }

  /** Two term functions that agree on every entry give the same sum. */
  lemma {:induction false} SumCongruent<T>(cart: seq<Entry<T>>, f: Entry<T> -> real, g: Entry<T> -> real)
    requires forall k :: 0 <= k < |cart| ==> f(cart[k]) == g(cart[k])
    ensures Sum(cart, f) == Sum(cart, g)
  {
    if cart != [] {
      SumCongruent(cart[..|cart| - 1], f, g);
    }
  }

  /** Adding changes a sum by the merged entry's growth, or by the new entry's term. */
  lemma SumAdded<T>(cart: seq<Entry<T>>, offer: Offer<T>, q: int, f: Entry<T> -> real)
    ensures var i := IndexOf(cart, offer.id);
      Sum(Added(cart, offer, q), f) ==
        if i >= 0 then Sum(cart, f) - f(cart[i]) + f(cart[i].(quantity := cart[i].quantity + q))
        else Sum(cart, f) + f(Entry(offer.id, offer.item, q))
  {
    var i := IndexOf(cart, offer.id);
    if i >= 0 {
      SumUpdate(cart, i, cart[i].(quantity := cart[i].quantity + q), f);
    } else {
      var e := Entry(offer.id, offer.item, q);
      SumAppend(cart, [e], f);
      assert [e][..0] == [];
    }
  }

  /** For a term that is additive in the quantity, merging `q` into an entry
      adds the term of `q` units of that entry to the sum. */
  lemma SumMergedAdditive<T>(cart: seq<Entry<T>>, offer: Offer<T>, q: int, f: Entry<T> -> real)
    requires Has(cart, offer.id)
    requires var e := cart[IndexOf(cart, offer.id)];
      f(e.(quantity := e.quantity + q)) == f(e) + f(e.(quantity := q))
    ensures var e := cart[IndexOf(cart, offer.id)];
      Sum(Added(cart, offer, q), f) == Sum(cart, f) + f(e.(quantity := q))
  {
    SumAdded(cart, offer, q, f);
  }

  /** With unique ids, removing an id takes exactly its entry's term off the sum. */
  lemma SumRemoved<T>(cart: seq<Entry<T>>, id: string, f: Entry<T> -> real)
    requires UniqueIds(cart)
    ensures var i := IndexOf(cart, id);
      Sum(Removed(cart, id), f) == if i >= 0 then Sum(cart, f) - f(cart[i]) else Sum(cart, f)
  {
    var i := IndexOf(cart, id);
    if i >= 0 {
      RemovedUnique(cart, id);
      assert cart == cart[..i] + [cart[i]] + cart[i + 1..];
      SumAppend(cart[..i] + [cart[i]], cart[i + 1..], f);
      SumAppend(cart[..i], [cart[i]], f);
      SumAppend(cart[..i], cart[i + 1..], f);
      assert [cart[i]][..0] == [];
    } else {
      RemovedAbsent(cart, id);
    }
  }
}

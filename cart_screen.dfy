/** The cart screen of the FoodKiosk app: quantity editing, removal and clearing of
    lines by id, and the order summary (subtotal, 8% tax, delivery fee, total and the
    free-delivery promo). Confirmation dialogs are parameters: `confirmed` is whether
    the user pressed the destructive button. */
module CartPricing {
  import opened Seqs

  datatype CartItem = CartItem(id: string, name: string, price: real, quantity: int,
                               image: string, customizations: seq<string>)

  const TaxRate: real := 0.08
  const FreeDeliveryThreshold: real := 25.0
  const DeliveryCharge: real := 2.99

  /** The starting contents of the cart. */
  const MockCartItems: seq<CartItem> := [
    CartItem("1", "Big Mac", 7.99, 2,
      "https://images.unsplash.com/photo-1568901346375-23c9450c58cd?w=300&h=200&fit=crop", ["No pickles", "Extra sauce"]),
    CartItem("3", "Chicken McNuggets", 6.99, 1,
      "https://images.unsplash.com/photo-1562967914-608f82629710?w=300&h=200&fit=crop", ["BBQ Sauce"]),
    CartItem("4", "Coca-Cola", 2.49, 2,
      "https://images.unsplash.com/photo-1581636625402-29b2a704ef13?w=300&h=200&fit=crop", [])]

  function LineTotal(item: CartItem): real
  {
    item.price * item.quantity as real
  }

  function UnitPrice(item: CartItem): real
  {
    item.price
  }

  /** Σ price × quantity over the lines. */
  function Subtotal(items: seq<CartItem>): real
  {
    Sum(items, LineTotal)
  }

  function Tax(subtotal: real): real
  {
    subtotal * TaxRate
  }

  /** Delivery is free only strictly above the threshold. */
  function DeliveryFee(subtotal: real): (fee: real)
    ensures fee == 0.0 <==> subtotal > FreeDeliveryThreshold
    ensures fee == 0.0 || fee == DeliveryCharge
  {
    if subtotal > FreeDeliveryThreshold then 0.0 else DeliveryCharge
  }

  function Total(items: seq<CartItem>): real
  {
    Subtotal(items) + Tax(Subtotal(items)) + DeliveryFee(Subtotal(items))
  }

  /** Whether the "Add $… more for free delivery!" banner is shown. */
  predicate PromoShown(subtotal: real)
  {
    subtotal < FreeDeliveryThreshold
  }

  /** The amount the banner asks for. */
  function PromoAmount(subtotal: real): real
  {
    FreeDeliveryThreshold - subtotal
  }

  /** The total is 108% of the subtotal plus a fee that is charged up to and including
      a subtotal of 25 and waived above it. */
  lemma TotalBreakdown(items: seq<CartItem>)
    ensures Subtotal(items) > 25.0 ==> Total(items) == Subtotal(items) * 1.08
    ensures Subtotal(items) <= 25.0 ==> Total(items) == Subtotal(items) * 1.08 + 2.99
  {
  }

  /** Lines with non-negative prices and quantities have a non-negative subtotal, and
      then the total is at least the subtotal. */
  lemma {:induction false} SubtotalNonNegative(items: seq<CartItem>)
    requires forall i :: 0 <= i < |items| ==> items[i].price >= 0.0 && items[i].quantity >= 0
    ensures Subtotal(items) >= 0.0
    ensures Total(items) >= Subtotal(items)
    decreases |items|
  {
    if |items| > 0 {
      SubtotalNonNegative(items[1..]);
      assert LineTotal(items[0]) >= 0.0;
    }
  }

  /** The banner appears only while delivery is charged, and then asks for a positive
      amount that brings the subtotal exactly to 25. */
  lemma PromoShortfall(subtotal: real)
    requires PromoShown(subtotal)
    ensures PromoAmount(subtotal) > 0.0
    ensures subtotal + PromoAmount(subtotal) == FreeDeliveryThreshold
    ensures DeliveryFee(subtotal) == DeliveryCharge
  {
  }

  /** At a subtotal of exactly 25 the fee is still charged but no banner is shown, and
      adding the amount the banner asks for does not yet make delivery free. */
  lemma ThresholdGap(subtotal: real)
    ensures subtotal == FreeDeliveryThreshold ==> !PromoShown(subtotal) && DeliveryFee(subtotal) == DeliveryCharge
    ensures PromoShown(subtotal) ==> DeliveryFee(subtotal + PromoAmount(subtotal)) == DeliveryCharge
  {
  }

  /** The summary of the starting cart: 27.95 subtotal, free delivery, tax 2.236. */
  lemma MockCartSummary()
    ensures Subtotal(MockCartItems) == 27.95
    ensures DeliveryFee(Subtotal(MockCartItems)) == 0.0 && !PromoShown(Subtotal(MockCartItems))
    ensures Tax(Subtotal(MockCartItems)) == 2.236 && Total(MockCartItems) == 30.186
  {
    calc {
      Subtotal(MockCartItems);
      LineTotal(MockCartItems[0]) + Sum(MockCartItems[1..], LineTotal);
      { assert MockCartItems[1..][1..] == MockCartItems[2..]; }
      15.98 + 6.99 + Sum(MockCartItems[2..], LineTotal);
      { assert MockCartItems[2..][1..] == []; }
      27.95;
    }
  }

  function KeepOther(id: string): CartItem -> bool
  {
    (item: CartItem) => item.id != id
  }

  function HasId(id: string): CartItem -> bool
  {
    (item: CartItem) => item.id == id
  }

  /** The confirmed `removeItem`: the `filter` that drops the lines with the id. */
  function RemoveById(items: seq<CartItem>, id: string): (r: seq<CartItem>)
    ensures |r| <= |items|
  {
    Filter(items, KeepOther(id))
  }

  /** Removal drops exactly the lines with the id: no such line is left, every other
      line stays with all its copies, the kept lines come from the cart in their
      original order, and the kept and removed lines together are the whole cart. */
  lemma RemoveByIdSpec(items: seq<CartItem>, id: string)
    ensures forall i :: 0 <= i < |RemoveById(items, id)| ==> RemoveById(items, id)[i].id != id
    ensures forall i :: 0 <= i < |items| && items[i].id != id ==> items[i] in RemoveById(items, id)
    ensures forall x :: multiset(RemoveById(items, id))[x] == if x.id != id then multiset(items)[x] else 0
    ensures IsSubsequence(RemoveById(items, id), items)
    ensures |RemoveById(items, id)| + |Filter(items, HasId(id))| == |items|
  {
    FilterMembers(items, KeepOther(id));
    FilterCounts(items, KeepOther(id));
    FilterSplitsLength(items, KeepOther(id), HasId(id));
  }

  /** Removing an id that no line carries leaves the cart as it was. */
  lemma RemoveAbsentId(items: seq<CartItem>, id: string)
    requires forall i :: 0 <= i < |items| ==> items[i].id != id
    ensures RemoveById(items, id) == items
  {
    FilterKeepsAll(items, KeepOther(id));
  }

  /** Removal lowers the subtotal by exactly the lines that carried the id. */
  lemma RemovalSubtotal(items: seq<CartItem>, id: string)
    ensures Subtotal(items) == Subtotal(RemoveById(items, id)) + Subtotal(Filter(items, HasId(id)))
  {
    SumSplits(items, KeepOther(id), HasId(id), LineTotal);
  }

  /** The `map` of `updateQuantity`: the lines with the id get the new quantity. */
  function SetQuantity(items: seq<CartItem>, id: string, quantity: int): (r: seq<CartItem>)
    ensures |r| == |items|
    decreases |items|
  {
    if |items| == 0 then []
    else
      [if items[0].id == id then items[0].(quantity := quantity) else items[0]]
      + SetQuantity(items[1..], id, quantity)
  }

  /** Every line with the id gets the new quantity; all other lines, all other fields
      and the order of the lines are untouched. */
  lemma {:induction false} SetQuantityAt(items: seq<CartItem>, id: string, quantity: int)
    ensures forall i :: 0 <= i < |items| ==>
      SetQuantity(items, id, quantity)[i] ==
        if items[i].id == id then items[i].(quantity := quantity) else items[i]
    decreases |items|
  {
    if |items| > 0 {
      SetQuantityAt(items[1..], id, quantity);
      forall i | 0 < i < |items|
        ensures SetQuantity(items, id, quantity)[i] ==
          if items[i].id == id then items[i].(quantity := quantity) else items[i]
      {
        assert SetQuantity(items, id, quantity)[i] == SetQuantity(items[1..], id, quantity)[i - 1];
        assert items[1..][i - 1] == items[i];
      }
    }
  }

  /** After setting the quantity of the lines with an id to `quantity`, the subtotal is
      that of the other lines plus `quantity` times the unit prices of those lines. */
  lemma {:induction false} UpdateSubtotal(items: seq<CartItem>, id: string, quantity: int)
    ensures Subtotal(SetQuantity(items, id, quantity)) ==
      Subtotal(RemoveById(items, id)) + quantity as real * Sum(Filter(items, HasId(id)), UnitPrice)
    decreases |items|
  {
    if |items| > 0 {
      var head, rest := items[0], items[1..];
      var q := quantity as real;
      UpdateSubtotal(rest, id, quantity);
      var updated := SetQuantity(items, id, quantity);
      assert updated[1..] == SetQuantity(rest, id, quantity);
      var others, matching := Filter(rest, KeepOther(id)), Filter(rest, HasId(id));
      var restTotal, matchingPrice := Subtotal(others), Sum(matching, UnitPrice);
      assert Subtotal(updated) == LineTotal(updated[0]) + Subtotal(updated[1..]);
      assert RemoveById(rest, id) == others;
      assert Subtotal(updated[1..]) == restTotal + q * matchingPrice;
      if head.id == id {
        assert LineTotal(updated[0]) == head.price * q;
        assert Filter(items, KeepOther(id)) == others;
        assert Filter(items, HasId(id)) == [head] + matching;
        assert ([head] + matching)[1..] == matching;
        assert Sum(Filter(items, HasId(id)), UnitPrice) == head.price + matchingPrice;
        Distribute(q, head.price, matchingPrice);
      } else {
        assert updated[0] == head;
        assert Filter(items, KeepOther(id)) == [head] + others;
        assert ([head] + others)[1..] == others;
        assert Subtotal(Filter(items, KeepOther(id))) == LineTotal(head) + restTotal;
        assert Filter(items, HasId(id)) == matching;
      }
    }
  }

  lemma Distribute(q: real, a: real, b: real)
    ensures q * (a + b) == a * q + q * b
  {
  }

  /** Every line has a quantity of at least one. */
  ghost predicate AllPositive(items: seq<CartItem>)
  {
    forall i :: 0 <= i < |items| ==> items[i].quantity >= 1
  }

  /** Removing lines, or setting a positive quantity, keeps every quantity positive. */
  lemma EditsKeepPositive(items: seq<CartItem>, id: string, quantity: int)
    requires AllPositive(items)
    ensures AllPositive(RemoveById(items, id))
    ensures quantity >= 1 ==> AllPositive(SetQuantity(items, id, quantity))
  {
    RemoveByIdSpec(items, id);
    SetQuantityAt(items, id, quantity);
    var r := RemoveById(items, id);
    forall i | 0 <= i < |r| ensures r[i].quantity >= 1 {
      assert r[i] in multiset(r);
      assert r[i] in items;
    }
  }

  /** The quantity the "−" button asks for: one less, but never below zero. */
  function DecrementTarget(quantity: int): (q: int)
    ensures q >= 0
    ensures quantity >= 1 ==> q == quantity - 1
    ensures quantity < 1 ==> q == 0
  {
    if quantity - 1 > 0 then quantity - 1 else 0
  }

  /** The quantity the "+" button asks for. */
  function IncrementTarget(quantity: int): (q: int)
    ensures q > quantity
  {
    quantity + 1
  }

  /** The state of the cart screen. */
  class Cart {
    var items: seq<CartItem>

    constructor ()
      ensures items == MockCartItems
    {
      items := MockCartItems;
    }

    /** `removeItem`: asks for confirmation; when confirmed, drops every line with the id. */
    method RemoveItem(id: string, confirmed: bool)
      modifies this
      ensures items == if confirmed then RemoveById(old(items), id) else old(items)
    {
      if confirmed {
        items := RemoveById(items, id);
      }
    }

    /** `updateQuantity`: a quantity of 0 asks to remove the lines with the id; any
        other quantity, negative ones included, is written into every such line. */
    method UpdateQuantity(id: string, newQuantity: int, confirmed: bool)
      modifies this
      ensures newQuantity == 0 ==>
        items == if confirmed then RemoveById(old(items), id) else old(items)
      ensures newQuantity != 0 ==> items == SetQuantity(old(items), id, newQuantity)
    {
      if newQuantity == 0 {
        RemoveItem(id, confirmed);
        return;
      }
      items := SetQuantity(items, id, newQuantity);
    }

    /** `clearCart`: asks for confirmation; when confirmed, empties the cart. */
    method ClearCart(confirmed: bool)
      modifies this
      ensures items == if confirmed then [] else old(items)
    {
      if confirmed {
        items := [];
      }
    }

    /** The "−" button of the line at `index`. Lines keep a quantity of at least one. */
    method Decrement(index: nat, confirmed: bool)
      requires index < |items|
      modifies this
      ensures var line := old(items)[index];
        items == if line.quantity > 1 then SetQuantity(old(items), line.id, line.quantity - 1)
                 else if confirmed then RemoveById(old(items), line.id)
                 else old(items)
      ensures AllPositive(old(items)) ==> AllPositive(items)
    {
      var line := items[index];
      ghost var before := items;
      UpdateQuantity(line.id, DecrementTarget(line.quantity), confirmed);
      if AllPositive(before) {
        EditsKeepPositive(before, line.id, line.quantity - 1);
      }
    }

    /** The "+" button of the line at `index`. Only a line whose quantity is −1 asks
        for removal; lines keep a quantity of at least one. */
    method Increment(index: nat, confirmed: bool)
      requires index < |items|
      modifies this
      ensures var line := old(items)[index];
        items == if line.quantity + 1 != 0 then SetQuantity(old(items), line.id, line.quantity + 1)
                 else if confirmed then RemoveById(old(items), line.id)
                 else old(items)
      ensures AllPositive(old(items)) ==> AllPositive(items)
    {
      var line := items[index];
      ghost var before := items;
      UpdateQuantity(line.id, IncrementTarget(line.quantity), confirmed);
      if AllPositive(before) {
        EditsKeepPositive(before, line.id, line.quantity + 1);
      }
    }
  }
}

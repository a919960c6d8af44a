/**
 * The `Order` and `Item` models of the orders app: the order row, its defaults, the id
 * generator, the restaurant-or-branch validation, the item line total and the order total.
 * Money is kept in integer cents (the decimal columns have two places).
 */
module OrderModels {
  import opened Wrappers
  import opened Entities
  import DecimalText

  /** Bounds of `random.randint` in the id generator, and the `max_length` of the id column. */
  const IdLow: nat := 1000000
  const IdHigh: nat := 9999999
  const IdMaxLength: nat := 10

  datatype Order = Order(
    id: string,
    rider: Option<Rider>,
    customer: Option<Customer>,
    restaurant: Option<Restaurant>,
    branch: Option<nat>,             // pk of the franchise branch
    pickupLocation: Option<Point>,
    dropoffLocation: Option<Point>,
    currentLocation: Option<Point>,
    status: string,
    dateOrdered: Option<Date>,
    dateDelivered: Option<Date>,
    paymentMethod: string,
    paymentStatus: string,
    deliveryFee: int,
    platformFee: int,
    tax: int,
    total: int)

  /** An order line: quantity, the unit price snapshot and the line total, in cents. */
  datatype Item = Item(quantity: nat, unitPrice: int, totalPrice: int)

  /** A freshly created order: every column the caller does not give takes its declared default. */
  function NewOrder(id: string, customer: Option<Customer>, rider: Option<Rider>,
                    restaurant: Option<Restaurant>, branch: Option<nat>): (o: Order)
    ensures o.id == id && o.customer == customer && o.rider == rider
    ensures o.restaurant == restaurant && o.branch == branch
    ensures o.status == "Placed"
    ensures o.paymentMethod == "Cash in hand" && o.paymentStatus == "Pending"
    ensures o.deliveryFee == 0 && o.platformFee == 0 && o.tax == 0 && o.total == 0
  {
    Order(id, rider, customer, restaurant, branch, None, None, None, "Placed", None, None,
          "Cash in hand", "Pending", 0, 0, 0, 0)
  }

  // ---- generate_unique_id --------------------------------------------------------------

  /** The candidate id for one draw of `random.randint(1000000, 9999999)`. */
  function CandidateId(draw: int): string
    requires IdLow <= draw <= IdHigh
  {
    "BO" + DecimalText.NatToString(draw)
  }

  /** Shape of every id the generator can produce: "BO" and a seven-digit number in range. */
  predicate IsOrderId(s: string)
  {
    && |s| == 9
    && s[..2] == "BO"
    && DecimalText.IsDigitString(s[2..])
    && IdLow <= DecimalText.DigitsValue(s[2..]) <= IdHigh
  }

  /** A candidate is "BO" plus its draw in seven digits: nine characters, within `max_length`. */
  lemma CandidateIdShape(draw: int)
    requires IdLow <= draw <= IdHigh
    ensures IsOrderId(CandidateId(draw)) && |CandidateId(draw)| <= IdMaxLength
    ensures DecimalText.DigitsValue(CandidateId(draw)[2..]) == draw
  {
    assert DecimalText.Pow10(6) == IdLow && DecimalText.Pow10(7) == IdHigh + 1;
    DecimalText.NatToStringLength(draw, 6);
    DecimalText.NatToStringValue(draw);
    assert CandidateId(draw)[2..] == DecimalText.NatToString(draw);
  }

  /**
   * `generate_unique_id`: keep drawing until the candidate is not an existing order id.
   * `draws` are the successive values the random source yields; the source loops for as
   * long as it takes, the model answers `None` when every supplied draw is taken.
   */
  method GenerateUniqueId(draws: seq<int>, existing: set<string>) returns (id: Option<string>)
    requires forall i :: 0 <= i < |draws| ==> IdLow <= draws[i] <= IdHigh
    ensures id.Some? ==> IsOrderId(id.value) && |id.value| <= IdMaxLength && id.value !in existing
    ensures id.Some? ==> exists i :: 0 <= i < |draws| && id.value == CandidateId(draws[i])
                                     && forall j :: 0 <= j < i ==> CandidateId(draws[j]) in existing
    ensures id.None? <==> forall i :: 0 <= i < |draws| ==> CandidateId(draws[i]) in existing
  {
    var k := 0;
    while k < |draws|
      invariant 0 <= k <= |draws|
      invariant forall j :: 0 <= j < k ==> CandidateId(draws[j]) in existing
    {
      var candidate := CandidateId(draws[k]);
      if candidate !in existing {
        CandidateIdShape(draws[k]);
        return Some(candidate);
      }
      k := k + 1;
    }
    return None;
  }

  // ---- Order.clean, Order.__str__ ------------------------------------------------------

  /** `Order.clean`: an order must name a restaurant or a branch, and not both. */
  function Clean(o: Order): (r: Outcome)
    ensures r == Pass <==> (o.restaurant.Some? <==> o.branch.None?)
    ensures o.restaurant.None? && o.branch.None? ==>
              r == Fail("Either restaurant or branch must be provided.")
    ensures o.restaurant.Some? && o.branch.Some? ==>
              r == Fail("Order can only be linked to one of restaurant or branch.")
  {
    if o.restaurant.None? && o.branch.None? then
      Fail("Either restaurant or branch must be provided.")
    else if o.restaurant.Some? && o.branch.Some? then
      Fail("Order can only be linked to one of restaurant or branch.")
    else
      Pass
  }

  /** A new order that names neither a restaurant nor a branch does not pass `clean`. */
  lemma NewOrderNeedsSellingLocation(id: string, customer: Option<Customer>, rider: Option<Rider>)
    ensures Clean(NewOrder(id, customer, rider, None, None)).Fail?
  {
  }

  /** `Order.__str__`: "Order <id> - <status>"; id and status can be read back from it. */
  function OrderText(o: Order): (s: string)
    ensures |s| == 9 + |o.id| + |o.status|
    ensures s[..6] == "Order " && s[6..6 + |o.id|] == o.id && s[9 + |o.id|..] == o.status
  {
    "Order " + o.id + " - " + o.status
  }

  // ---- Item.save, Order.calculate_totals ------------------------------------------------

  /** `Item.save`: the line total becomes quantity times unit price, whatever was there. */
  function SaveItem(item: Item): (saved: Item)
    ensures saved.quantity == item.quantity && saved.unitPrice == item.unitPrice
    ensures saved.totalPrice == item.quantity * item.unitPrice
  {
    item.(totalPrice := item.quantity * item.unitPrice)
  }

  /** A supplied line total never survives a save, and saving twice is saving once. */
  lemma SaveItemOverridesTotal(item: Item, supplied: int)
    ensures SaveItem(item.(totalPrice := supplied)) == SaveItem(item)
    ensures SaveItem(SaveItem(item)) == SaveItem(item)
  {
  }

  /** `sum(item.total_price for item in items)`. */
  function ItemsTotal(items: seq<Item>): int
  {
    if items == [] then 0 else ItemsTotal(items[..|items| - 1]) + items[|items| - 1].totalPrice
  }

  /** The items total of two lists of lines is the sum of their totals. */
  lemma {:induction false} ItemsTotalAppend(a: seq<Item>, b: seq<Item>)
    ensures ItemsTotal(a + b) == ItemsTotal(a) + ItemsTotal(b)
  {
    if b == [] {
      assert a + b == a;
    } else {
      assert (a + b)[..|a + b| - 1] == a + b[..|b| - 1];
      ItemsTotalAppend(a, b[..|b| - 1]);
    }
  }

  /** Adding one saved line raises the items total by quantity times unit price. */
  lemma ItemsTotalAddLine(items: seq<Item>, line: Item)
    ensures ItemsTotal(items + [SaveItem(line)]) == ItemsTotal(items) + line.quantity * line.unitPrice
  {
    ItemsTotalAppend(items, [SaveItem(line)]);
  }

  /**
   * `calculate_totals`: total = sum of the item line totals + delivery fee + platform fee + tax;
   * every other column is unchanged. The updated row is returned (the source assigns and saves).
   */
  method CalculateTotals(o: Order, items: seq<Item>) returns (updated: Order)
    ensures updated == o.(total := ItemsTotal(items) + o.deliveryFee + o.platformFee + o.tax)
  {
    var sum := 0;
    var k := 0;
    while k < |items|
      invariant 0 <= k <= |items|
      invariant sum == ItemsTotal(items[..k])
    {
      assert items[..k + 1][..k] == items[..k];
      sum := sum + items[k].totalPrice;
      k := k + 1;
    }
    assert items[..k] == items;
    updated := o.(total := sum + o.deliveryFee + o.platformFee + o.tax);
  }
}

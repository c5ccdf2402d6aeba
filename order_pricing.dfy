/**
 * The price breakdown of the checkout confirmation page: the items
 * subtotal folded over the cart, a flat shipping charge waived above a
 * threshold, a 5% tax, the grand total, and the order record that carries
 * them. Amounts are exact rationals (rupees); the two-decimal rendering of
 * the tax and the total is a formatter outside this model.
 */
module OrderPricing {

  /** A cart line: unit price and quantity. */
  datatype CartItem = CartItem(price: real, quantity: int)

  /**
   * The order record with exact amounts; `S` is the shipping information
   * taken from the cart state, carried through untouched. The record the
   * page sends holds `taxPrice` and `totalPrice` as two-decimal strings
   * rendered from these amounts, a formatting step outside this model.
   */
  datatype Order<S> = Order(
    orderItems: seq<CartItem>,
    itemsPrice: real,
    taxPrice: real,
    shippingPrice: real,
    totalPrice: real,
    shippingInfo: S)

  /** Subtotals strictly above this are shipped free. */
  const FreeShippingAbove: real := 200.0

  /** The flat shipping charge below the threshold. */
  const ShippingCharge: real := 1.0

  /** The tax rate, 0.05. */
  const TaxRate: real := 0.05

  /** What one cart line costs. */
  function LineTotal(item: CartItem): real
  {
    item.price * item.quantity as real
  }

  /** A cart line with a non-negative price and quantity. */
  predicate NonNegative(item: CartItem)
  {
    item.price >= 0.0 && item.quantity >= 0
  }

  /** Every line of the cart is non-negative. */
  predicate AllNonNegative(items: seq<CartItem>)
  {
    forall i :: 0 <= i < |items| ==> NonNegative(items[i])
  }

  /** The sum of the line totals, as a reference definition (last line added last). */
  function Sum(items: seq<CartItem>): real
    decreases |items|
  {
    if items == [] then 0.0
    else Sum(items[..|items| - 1]) + LineTotal(items[|items| - 1])
  }

  /** `Array.reduce` with an accumulator: the running total plus the remaining lines. */
  function FoldLines(acc: real, items: seq<CartItem>): real
    decreases |items|
  {
    if items == [] then acc
    else FoldLines(acc + LineTotal(items[0]), items[1..])
  }

  /** `itemsPrice`: the cart folded from an accumulator of 0. */
  function ItemsPrice(items: seq<CartItem>): real
  {
    FoldLines(0.0, items)
  }

  /** `shippingPrice`: free strictly above the threshold, the flat charge otherwise. */
  function ShippingPrice(itemsPrice: real): (r: real)
    ensures r == 0.0 <==> itemsPrice > FreeShippingAbove
    ensures r == 0.0 || r == ShippingCharge
  {
    if itemsPrice > FreeShippingAbove then 0.0 else ShippingCharge
  }

  /** `taxPrice` before formatting: 5% of the subtotal. */
  function TaxPrice(itemsPrice: real): (r: real)
    ensures itemsPrice >= 0.0 ==> 0.0 <= r <= itemsPrice
    ensures itemsPrice == 20.0 * r
  {
    TaxRate * itemsPrice
  }

  /** `totalPrice` before formatting: subtotal, shipping and the unrounded tax. */
  function TotalPrice(items: seq<CartItem>): (r: real)
    ensures r == 1.05 * Sum(items) + (if Sum(items) > FreeShippingAbove then 0.0 else ShippingCharge)
  {
    var itemsPrice := ItemsPrice(items);
    ItemsPriceIsSum(items);
    itemsPrice + ShippingPrice(itemsPrice) + TaxPrice(itemsPrice)
  }

  /** The order record built from the cart and the shipping information. */
  function MakeOrder<S>(cartItems: seq<CartItem>, shippingInfo: S): (r: Order<S>)
    ensures r.orderItems == cartItems && r.shippingInfo == shippingInfo
    ensures WellPriced(r)
  {
    var itemsPrice := ItemsPrice(cartItems);
    ItemsPriceIsSum(cartItems);
    Order(cartItems, itemsPrice, TaxPrice(itemsPrice), ShippingPrice(itemsPrice),
          TotalPrice(cartItems), shippingInfo)
  }

  /**
   * The price fields of an order agree with its items: the subtotal is the
   * sum of the lines, tax and shipping follow from the subtotal, and the
   * total is their sum.
   */
  predicate WellPriced<S>(o: Order<S>)
  {
    o.itemsPrice == Sum(o.orderItems)
    && o.shippingPrice == (if o.itemsPrice > FreeShippingAbove then 0.0 else ShippingCharge)
    && o.taxPrice == o.itemsPrice / 20.0
    && o.totalPrice == o.itemsPrice + o.shippingPrice + o.taxPrice
  }

  // ---------------------------------------------------------------------
  // The subtotal
  // ---------------------------------------------------------------------

  /** Folding from an accumulator adds the accumulator to the sum of the lines. */
  lemma {:induction false} FoldLinesIsSum(acc: real, items: seq<CartItem>)
    ensures FoldLines(acc, items) == acc + Sum(items)
    decreases |items|
  {
    if items != [] {
      FoldLinesIsSum(acc + LineTotal(items[0]), items[1..]);
      SumCons(items[0], items[1..]);
      assert [items[0]] + items[1..] == items;
    }
  }

  /** The sum of a cart whose first line is `item`. */
  lemma {:induction false} SumCons(item: CartItem, rest: seq<CartItem>)
    ensures Sum([item] + rest) == LineTotal(item) + Sum(rest)
    decreases |rest|
  {
    if rest != [] {
      var n := |rest|;
      assert ([item] + rest)[..n] == [item] + rest[..n - 1];
      SumCons(item, rest[..n - 1]);
    }
  }

  /** `itemsPrice` is the sum of price times quantity over the cart. */
  lemma ItemsPriceIsSum(items: seq<CartItem>)
    ensures ItemsPrice(items) == Sum(items)
  {
    FoldLinesIsSum(0.0, items);
  }

  /** An empty cart costs nothing. */
  lemma ItemsPriceEmpty()
    ensures ItemsPrice([]) == 0.0
  {
  }

  /** Appending a line adds exactly that line's total to `itemsPrice`. */
  lemma ItemsPriceAppend(items: seq<CartItem>, item: CartItem)
    ensures ItemsPrice(items + [item]) == ItemsPrice(items) + LineTotal(item)
  {
    ItemsPriceIsSum(items);
    ItemsPriceIsSum(items + [item]);
    assert (items + [item])[..|items|] == items;
  }

  /** Concatenating two carts adds their subtotals. */
  lemma {:induction false} ItemsPriceConcat(a: seq<CartItem>, b: seq<CartItem>)
    ensures ItemsPrice(a + b) == ItemsPrice(a) + ItemsPrice(b)
    decreases |b|
  {
    if b == [] {
      assert a + b == a;
    } else {
      var n := |b|;
      var init := b[..n - 1];
      assert a + b == (a + init) + [b[n - 1]];
      assert b == init + [b[n - 1]];
      ItemsPriceAppend(a + init, b[n - 1]);
      ItemsPriceAppend(init, b[n - 1]);
      ItemsPriceConcat(a, init);
    }
  }

  /** A cart of non-negative lines has a non-negative subtotal. */
  lemma {:induction false} SumNonNegative(items: seq<CartItem>)
    requires AllNonNegative(items)
    ensures Sum(items) >= 0.0
    decreases |items|
  {
    if items != [] {
      var n := |items|;
      assert NonNegative(items[n - 1]);
      var init := items[..n - 1];
      assert forall i :: 0 <= i < |init| ==> init[i] == items[i];
      SumNonNegative(init);
    }
  }

  /** A cart of non-negative lines has a non-negative `itemsPrice`. */
  lemma ItemsPriceNonNegative(items: seq<CartItem>)
    requires AllNonNegative(items)
    ensures ItemsPrice(items) >= 0.0
  {
    ItemsPriceIsSum(items);
    SumNonNegative(items);
  }

  // ---------------------------------------------------------------------
  // Shipping, tax and total
  // ---------------------------------------------------------------------

  /** A subtotal of exactly the threshold still pays the shipping charge. */
  lemma ShippingAtThreshold()
    ensures ShippingPrice(FreeShippingAbove) == ShippingCharge
    ensures forall x :: x > FreeShippingAbove ==> ShippingPrice(x) == 0.0
  {
  }

  /** With non-negative lines the tax lies between 0 and the subtotal. */
  lemma TaxBounds(items: seq<CartItem>)
    requires AllNonNegative(items)
    ensures 0.0 <= TaxPrice(ItemsPrice(items)) <= ItemsPrice(items)
  {
    ItemsPriceNonNegative(items);
  }

  /**
   * With non-negative lines the total is at least the subtotal and at most
   * 105% of it plus the shipping charge.
   */
  lemma TotalBounds(items: seq<CartItem>)
    requires AllNonNegative(items)
    ensures ItemsPrice(items) <= TotalPrice(items) <= 1.05 * ItemsPrice(items) + ShippingCharge
  {
    ItemsPriceNonNegative(items);
  }

  /**
   * The total is not monotone in the cart: adding a line that lifts the
   * subtotal just past the threshold lowers the total.
   */
  lemma TotalNotMonotone()
    ensures TotalPrice([CartItem(200.0, 1)] + [CartItem(0.5, 1)]) < TotalPrice([CartItem(200.0, 1)])
  {
  }

  // ---------------------------------------------------------------------
  // The order record
  // ---------------------------------------------------------------------

  /**
   * A well-priced order is exactly the one built from its own items and
   * shipping information: the price fields are determined by the cart.
   */
  lemma WellPricedIsMakeOrder<S>(o: Order<S>)
    ensures WellPriced(o) <==> o == MakeOrder(o.orderItems, o.shippingInfo)
  {
  }
}

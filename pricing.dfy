/** The cart total, computed the same way by the checkout page and the checkout route. */
module Pricing {
  import opened Catalog
  import opened Seqs

  /** One cart line: a product (with its price as the client sent it) and a quantity. */
  datatype CheckoutItem = CheckoutItem(product: Product, quantity: int)

  /** `item.product.price * item.quantity`: the amount of one cart line. */
  function LineAmount(item: CheckoutItem): int
  {
    item.product.price * item.quantity
  }

  /** The line amounts of a cart, in cart order. */
  function LineAmounts(items: seq<CheckoutItem>): (r: seq<int>)
    ensures |r| == |items|
    ensures forall i :: 0 <= i < |items| ==> r[i] == LineAmount(items[i])
  {
    if items == [] then [] else [LineAmount(items[0])] + LineAmounts(items[1..])
  }

  /** `items.reduce((sum, item) => sum + item.product.price * item.quantity, acc)`: a left fold. */
  function Reduce(acc: int, items: seq<CheckoutItem>): int
    decreases |items|
  {
    if items == [] then acc else Reduce(acc + LineAmount(items[0]), items[1..])
  }

  /** The left fold from `acc` adds `acc` to the sum of the line amounts. */
  lemma {:induction false} ReduceIsSum(acc: int, items: seq<CheckoutItem>)
    ensures Reduce(acc, items) == acc + SumOf(LineAmounts(items))
    decreases |items|
  {
    if items != [] {
      ReduceIsSum(acc + LineAmount(items[0]), items[1..]);
      assert LineAmounts(items)[1..] == LineAmounts(items[1..]);
    }
  }

  /** The cart total, the reduce started at 0: the sum of `price * quantity` over the lines. */
  function Total(items: seq<CheckoutItem>): (r: int)
    ensures r == SumOf(LineAmounts(items))
    ensures items == [] ==> r == 0
  {
    ReduceIsSum(0, items);
    Reduce(0, items)
  }

  /** The worked example: 50000 x 2 plus 30000 x 1 is 130000. */
  lemma TotalExample(p: Product, q: Product)
    requires p.price == 50000 && q.price == 30000
    ensures Total([CheckoutItem(p, 2), CheckoutItem(q, 1)]) == 130000
  {
    var amounts := LineAmounts([CheckoutItem(p, 2), CheckoutItem(q, 1)]);
    assert amounts == [100000, 30000];
    assert SumOf(amounts[1..]) == 30000 + SumOf([]);
  }
}

/**
 * The order summary shown by the cart and the checkout pages: the subtotal
 * is the sum of price times quantity over the cart lines, shipping is free
 * above 500 and 50 otherwise, and the total adds the two. Both pages use the
 * same three formulas over the same sample cart; the cart page also has an
 * empty-cart view and a per-line unit-price breakdown.
 */
module Totals {
  import opened Js

  /** A cart line: unit price in riyals and quantity. */
  datatype Line = Line(price: int, quantity: int)

  /** The threshold above which shipping is free, and the flat charge below it. */
  const FreeShippingAbove: int := 500
  const ShippingCharge: int := 50

  /** The two sample lines both pages show: 5999 × 1 and 899 × 2. */
  const SampleCart: seq<Line> := [Line(5999, 1), Line(899, 2)]

  function Amount(l: Line): int
  {
    l.price * l.quantity
  }

  /** The reference sum of the line amounts, first line first. */
  function Sum(lines: seq<Line>): int
  {
    if lines == [] then 0 else Amount(lines[0]) + Sum(lines[1..])
  }

  /** `lines.reduce((total, item) => total + item.price * item.quantity, acc)`: a left fold. */
  function Reduce(acc: int, lines: seq<Line>): int
    decreases |lines|
  {
    if lines == [] then acc else Reduce(acc + Amount(lines[0]), lines[1..])
  }

  /** The fold adds the sum of the line amounts to its starting value. */
  lemma {:induction false} ReduceIsSum(acc: int, lines: seq<Line>)
    ensures Reduce(acc, lines) == acc + Sum(lines)
    decreases |lines|
  {
    if lines != [] {
      ReduceIsSum(acc + Amount(lines[0]), lines[1..]);
    }
  }

  /** Appending a line adds its amount to the sum. */
  lemma {:induction false} SumAppend(lines: seq<Line>, l: Line)
    ensures Sum(lines + [l]) == Sum(lines) + Amount(l)
  {
    if lines != [] {
      assert (lines + [l])[1..] == lines[1..] + [l];
      SumAppend(lines[1..], l);
    }
  }

  /** `subtotal > 500 ? 0 : 50`. */
  function Shipping(subtotal: int): (r: int)
    ensures r == 0 <==> subtotal > FreeShippingAbove
    ensures r == ShippingCharge <==> subtotal <= FreeShippingAbove
  {
    if subtotal > FreeShippingAbove then 0 else ShippingCharge
  }

  /** The three figures of the order summary. */
  datatype Summary = Summary(subtotal: int, shipping: int, total: int)

  function Summarize(lines: seq<Line>): (s: Summary)
    ensures s.subtotal == Sum(lines)
    ensures s.shipping == Shipping(s.subtotal) && s.total == s.subtotal + s.shipping
    ensures s.total - s.subtotal == 0 || s.total - s.subtotal == ShippingCharge
    ensures s.total == s.subtotal <==> Sum(lines) > FreeShippingAbove
  {
    ReduceIsSum(0, lines);
    var subtotal := Reduce(0, lines);
    var shipping := Shipping(subtotal);
    Summary(subtotal, shipping, subtotal + shipping)
  }

  /** A subtotal of exactly 500 still pays for shipping; one riyal more ships free. */
  lemma ThresholdIsStrict()
    ensures Summarize([Line(500, 1)]) == Summary(500, 50, 550)
    ensures Summarize([Line(501, 1)]) == Summary(501, 0, 501)
  {
    assert Sum([Line(500, 1)]) == 500;
    assert Sum([Line(501, 1)]) == 501;
  }

  /** The sample cart: 5999 + 2 × 899 = 7797, above the threshold, so it ships free. */
  lemma SampleCartTotals()
    ensures Summarize(SampleCart) == Summary(7797, 0, 7797)
  {
    assert SampleCart[1..] == [Line(899, 2)];
    assert Sum(SampleCart) == 7797;
  }

  /**
   * Adding a line of positive price and quantity never makes shipping dearer;
   * the total grows by the line's amount less at most the 50 saved.
   */
  lemma AddingLineNeverRaisesShipping(lines: seq<Line>, l: Line)
    requires l.price > 0 && l.quantity > 0
    ensures Summarize(lines + [l]).shipping <= Summarize(lines).shipping
    ensures Summarize(lines + [l]).total >= Summarize(lines).total + Amount(l) - ShippingCharge
  {
    SumAppend(lines, l);
    assert Amount(l) > 0 by {
      assert l.price * l.quantity >= l.price;
    }
  }

  /** The free-shipping jump: a cart at 480 totals 530, and adding a 30-riyal line lowers that to 510. */
  lemma AddingLineCanLowerTotal()
    ensures Summarize([Line(480, 1)]).total == 530
    ensures Summarize([Line(480, 1), Line(30, 1)]).total == 510
  {
    SumAppend([Line(480, 1)], Line(30, 1));
    assert [Line(480, 1)] + [Line(30, 1)] == [Line(480, 1), Line(30, 1)];
    assert Sum([Line(480, 1)]) == 480;
  }

  // ---------------------------------------------------------------------
  // What the pages render

  /** `shipping === 0 ? "مجاني" : \`${shipping} ر.س\``. */
  datatype ShippingLabel = Free | Charged(amount: int)

  function Label(shipping: int): (r: ShippingLabel)
    ensures r == Free <==> shipping == 0
    ensures r.Charged? ==> r.amount == shipping
  {
    if shipping == 0 then Free else Charged(shipping)
  }

  /** The label reads "free" exactly when the subtotal is above the threshold. */
  lemma FreeLabelIffAboveThreshold(lines: seq<Line>)
    ensures Label(Summarize(lines).shipping) == Free <==> Sum(lines) > FreeShippingAbove
  {
  }

  /** A checkout line: `{quantity} × {price}` and the amount `price * quantity`. */
  datatype CheckoutLine = CheckoutLine(quantity: int, price: int, amount: int)

  function CheckoutLines(lines: seq<Line>): (r: seq<CheckoutLine>)
    ensures |r| == |lines|
    ensures forall i :: 0 <= i < |r| ==>
      r[i].quantity == lines[i].quantity && r[i].price == lines[i].price && r[i].amount == lines[i].price * lines[i].quantity
  {
    seq(|lines|, i requires 0 <= i < |lines| => CheckoutLine(lines[i].quantity, lines[i].price, Amount(lines[i])))
  }

  /** The sum of the amounts of a list of rendered lines. */
  function ShownSum(shown: seq<CheckoutLine>): int
  {
    if shown == [] then 0 else shown[0].amount + ShownSum(shown[1..])
  }

  /** The line amounts the checkout shows add up to the subtotal it shows. */
  lemma {:induction false} ShownAmountsAddUp(lines: seq<Line>)
    ensures ShownSum(CheckoutLines(lines)) == Summarize(lines).subtotal
  {
    if lines != [] {
      assert CheckoutLines(lines)[1..] == CheckoutLines(lines[1..]);
      ShownAmountsAddUp(lines[1..]);
    }
  }

  /** A cart line as the cart page shows it: the unit price, and `{price} × {quantity}` only when more than one. */
  datatype CartLine = CartLine(price: int, breakdown: Option<(int, int)>)

  function ShowLine(l: Line): (r: CartLine)
    ensures r.price == l.price
    ensures r.breakdown.Some? <==> l.quantity > 1
    ensures r.breakdown.Some? ==> r.breakdown.value == (l.price, l.quantity)
  {
    CartLine(l.price, if l.quantity > 1 then Some((l.price, l.quantity)) else None)
  }

  /** The cart page: the empty-cart message, or the lines and the order summary. */
  datatype CartView = EmptyCart | Filled(shown: seq<CartLine>, summary: Summary)

  function Cart(lines: seq<Line>): (v: CartView)
    ensures v.EmptyCart? <==> |lines| == 0
    ensures v.Filled? ==> v.summary == Summarize(lines) && |v.shown| == |lines|
    ensures v.Filled? ==> forall i :: 0 <= i < |lines| ==> v.shown[i] == ShowLine(lines[i])
  {
    if |lines| > 0 then Filled(seq(|lines|, i requires 0 <= i < |lines| => ShowLine(lines[i])), Summarize(lines))
    else EmptyCart
  }

  /** The empty cart's summary would charge shipping on nothing; the page never shows it. */
  lemma EmptyCartHidesSummary()
    ensures Summarize([]) == Summary(0, 50, 50)
    ensures Cart([]) == EmptyCart
  {
  }
}

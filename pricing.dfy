/** Value-level pricing model of the shopping cart: a catalog entry, the
    snapshot of one cart line, and the order-level aggregates that the page
    recomputes on every read. */
module Pricing {

  /** One catalog entry `{name, price}`; prices are whole non-negative amounts. */
  datatype Meal = Meal(name: string, price: nat)

  /** The observable state of one `MealData`: the catalog entry it wraps and
      its selected quantity, which is never negative. */
  datatype Line = Line(meal: Meal, quantity: nat) {

    /** The line total: quantity times unit price. */
    function TotalPrice(): nat {
      quantity * meal.price
    }

    /** A line is in the cart as soon as one unit of it is selected. */
    predicate IsAddedToCart() {
      quantity > 0
    }

    /** The line after one press of "+": no upper bound. */
    function Increased(): Line {
      this.(quantity := quantity + 1)
    }

    /** The line after one press of "-": clamped at zero. */
    function Decreased(): Line {
      if quantity > 0 then this.(quantity := quantity - 1) else this
    }
  }

  /** "-" on an empty line changes nothing, so it can be repeated freely;
      otherwise it removes exactly one unit and keeps the meal. */
  lemma DecreasedClamps(l: Line)
    ensures l.Decreased().meal == l.meal
    ensures !l.IsAddedToCart() ==> l.Decreased() == l && l.Decreased().Decreased() == l
    ensures l.IsAddedToCart() ==> l.Decreased().quantity == l.quantity - 1
  {
  }

  /** "+" then "-" restores the line. */
  lemma IncreasedThenDecreased(l: Line)
    ensures l.Increased().IsAddedToCart()
    ensures l.Increased().Decreased() == l
  {
  }

  /** The line total is zero exactly when nothing is selected or the meal is free. */
  lemma LineTotalZero(l: Line)
    ensures l.TotalPrice() == 0 <==> !l.IsAddedToCart() || l.meal.price == 0
  {
  }

  /** One more unit adds exactly one unit price to the line total. */
  lemma IncreasedTotal(l: Line)
    ensures l.Increased().TotalPrice() == l.TotalPrice() + l.meal.price
  {
  }

  /** The order total: a left fold that adds each line total to a running sum
      that starts at 0. */
  function OrderTotal(lines: seq<Line>): nat
  {
    if lines == [] then 0 else OrderTotal(lines[..|lines| - 1]) + lines[|lines| - 1].TotalPrice()
  }

  /** The number of units in the cart: the same fold over the quantities. */
  function CartTotalNum(lines: seq<Line>): nat
  {
    if lines == [] then 0 else CartTotalNum(lines[..|lines| - 1]) + lines[|lines| - 1].quantity
  }

  /** The cart after "+" on line `i`. */
  function IncreaseAt(lines: seq<Line>, i: nat): seq<Line>
    requires i < |lines|
  {
    lines[i := lines[i].Increased()]
  }

  /** The cart after "-" on line `i`. */
  function DecreaseAt(lines: seq<Line>, i: nat): seq<Line>
    requires i < |lines|
  {
    lines[i := lines[i].Decreased()]
  }

  /** The order total is additive over concatenation, so it does not depend on
      how the lines are grouped: it is the plain sum of the line totals. */
  lemma {:induction false} OrderTotalAppend(a: seq<Line>, b: seq<Line>)
    ensures OrderTotal(a + b) == OrderTotal(a) + OrderTotal(b)
    decreases |b|
  {
    if b == [] {
      assert a + b == a;
    } else {
      var n := |b| - 1;
      assert (a + b)[..|a + b| - 1] == a + b[..n];
      OrderTotalAppend(a, b[..n]);
    }
  }

  /** The unit count is additive over concatenation. */
  lemma {:induction false} CartTotalNumAppend(a: seq<Line>, b: seq<Line>)
    ensures CartTotalNum(a + b) == CartTotalNum(a) + CartTotalNum(b)
    decreases |b|
  {
    if b == [] {
      assert a + b == a;
    } else {
      var n := |b| - 1;
      assert (a + b)[..|a + b| - 1] == a + b[..n];
      CartTotalNumAppend(a, b[..n]);
    }
  }

  /** Replacing one line changes the order total by exactly the difference of
      the two line totals; every other line still contributes the same. */
  lemma {:induction false} OrderTotalUpdate(lines: seq<Line>, i: nat, l: Line)
    requires i < |lines|
    ensures OrderTotal(lines[i := l]) + lines[i].TotalPrice() == OrderTotal(lines) + l.TotalPrice()
  {
    var pre, post := lines[..i], lines[i + 1..];
    assert lines == pre + [lines[i]] + post;
    assert lines[i := l] == pre + [l] + post;
    OrderTotalAppend(pre + [lines[i]], post);
    OrderTotalAppend(pre, [lines[i]]);
    OrderTotalAppend(pre + [l], post);
    OrderTotalAppend(pre, [l]);
    assert [lines[i]][..0] == [] && [l][..0] == [];
  }

  /** Replacing one line changes the unit count by the difference of the quantities. */
  lemma {:induction false} CartTotalNumUpdate(lines: seq<Line>, i: nat, l: Line)
    requires i < |lines|
    ensures CartTotalNum(lines[i := l]) + lines[i].quantity == CartTotalNum(lines) + l.quantity
  {
    var pre, post := lines[..i], lines[i + 1..];
    assert lines == pre + [lines[i]] + post;
    assert lines[i := l] == pre + [l] + post;
    CartTotalNumAppend(pre + [lines[i]], post);
    CartTotalNumAppend(pre, [lines[i]]);
    CartTotalNumAppend(pre + [l], post);
    CartTotalNumAppend(pre, [l]);
    assert [lines[i]][..0] == [] && [l][..0] == [];
  }

  /** "+" on line `i` raises the order total by that meal's price and the unit
      count by one. */
  lemma {:induction false} IncreaseAtTotals(lines: seq<Line>, i: nat)
    requires i < |lines|
    ensures OrderTotal(IncreaseAt(lines, i)) == OrderTotal(lines) + lines[i].meal.price
    ensures CartTotalNum(IncreaseAt(lines, i)) == CartTotalNum(lines) + 1
  {
    OrderTotalUpdate(lines, i, lines[i].Increased());
    CartTotalNumUpdate(lines, i, lines[i].Increased());
    IncreasedTotal(lines[i]);
  }

  /** "-" on a selected line lowers the order total by that meal's price and
      the unit count by one; on an unselected line it changes nothing. */
  lemma {:induction false} DecreaseAtTotals(lines: seq<Line>, i: nat)
    requires i < |lines|
    ensures lines[i].IsAddedToCart() ==>
              OrderTotal(DecreaseAt(lines, i)) + lines[i].meal.price == OrderTotal(lines) &&
              CartTotalNum(DecreaseAt(lines, i)) + 1 == CartTotalNum(lines)
    ensures !lines[i].IsAddedToCart() ==> DecreaseAt(lines, i) == lines
  {
    if lines[i].IsAddedToCart() {
      var l := lines[i].Decreased();
      OrderTotalUpdate(lines, i, l);
      CartTotalNumUpdate(lines, i, l);
      IncreasedTotal(l);
      assert l.Increased() == lines[i];
    } else {
      assert lines[i].Decreased() == lines[i];
    }
  }

  /** "+" then "-" on the same line restores the whole cart. */
  lemma IncreaseThenDecreaseAt(lines: seq<Line>, i: nat)
    requires i < |lines|
    ensures DecreaseAt(IncreaseAt(lines, i), i) == lines
  {
    IncreasedThenDecreased(lines[i]);
  }

  /** The order total is zero exactly when every line total is zero; in
      particular it is zero when nothing is selected. */
  lemma {:induction false} OrderTotalZero(lines: seq<Line>)
    ensures OrderTotal(lines) == 0 <==> forall i :: 0 <= i < |lines| ==> lines[i].TotalPrice() == 0
  {
    if lines != [] {
      var n := |lines| - 1;
      OrderTotalZero(lines[..n]);
      assert forall i :: 0 <= i < n ==> lines[..n][i] == lines[i];
    }
  }

  /** The unit count is zero exactly when no line is in the cart. */
  lemma {:induction false} CartTotalNumZero(lines: seq<Line>)
    ensures CartTotalNum(lines) == 0 <==> forall i :: 0 <= i < |lines| ==> !lines[i].IsAddedToCart()
  {
    if lines != [] {
      var n := |lines| - 1;
      CartTotalNumZero(lines[..n]);
      assert forall i :: 0 <= i < n ==> lines[..n][i] == lines[i];
    }
  }

  /** An empty cart costs nothing. */
  lemma {:induction false} EmptyCartTotal(lines: seq<Line>)
    requires CartTotalNum(lines) == 0
    ensures OrderTotal(lines) == 0
  {
    CartTotalNumZero(lines);
    OrderTotalZero(lines);
  }

  /** Every line contributes its full total: the order total is at least each
      line total. */
  lemma {:induction false} OrderTotalCoversLine(lines: seq<Line>, i: nat)
    requires i < |lines|
    ensures lines[i].TotalPrice() <= OrderTotal(lines)
  {
    OrderTotalUpdate(lines, i, lines[i].(quantity := 0));
  }

  /** Whether the order reaches the delivery minimum. */
  predicate CanDeliver(total: nat, minimum: nat) {
    total >= minimum
  }

  /** The amount still missing to reach the delivery minimum; computed
      unconditionally, so it is zero or negative once delivery is possible. */
  function NeedCostToDelivery(total: nat, minimum: nat): (r: int)
    ensures r > 0 <==> !CanDeliver(total, minimum)
    ensures r > 0 ==> CanDeliver(total + r, minimum) && !CanDeliver(total + r - 1, minimum)
  {
    minimum - total
  }
}

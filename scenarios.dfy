/** Click sequences on a freshly built page, as the page's event handler would
    issue them, with the figures the cart bar then shows. */
module Scenarios {
  import opened Pricing
  import opened Cart

  /** One "+" on the first meal (price 66): the total is 66, delivery is not
      yet offered, and 34 more is needed. */
  method OneShawarma() returns (total: nat, canDeliver: bool, needCost: int)
    ensures total == 66 && !canDeliver && needCost == 34
  {
    var page := new PageData();
    ghost var start := page.Lines();
    OrderTotalZero(start);
    page.Increase(0);
    IncreaseAtTotals(start, 0);
    total := page.TotalPrice();
    canDeliver := page.IsCanDelivery();
    needCost := page.GetNeedCostToDelivery();
  }

  /** Two "+" on the first meal reach the minimum (132 >= 100); two "-"
      empty the cart again, so both the total and the unit count are 0. */
  method UpAndDownAgain() returns (peak: nat, canDeliverAtPeak: bool, total: nat, count: nat)
    ensures peak == 132 && canDeliverAtPeak
    ensures total == 0 && count == 0
  {
    var page := new PageData();
    ghost var l0 := page.Lines();
    OrderTotalZero(l0);
    CartTotalNumZero(l0);
    page.Increase(0);
    ghost var l1 := page.Lines();
    IncreaseAtTotals(l0, 0);
    page.Increase(0);
    ghost var l2 := page.Lines();
    IncreaseAtTotals(l1, 0);
    peak := page.TotalPrice();
    canDeliverAtPeak := page.IsCanDelivery();
    page.Decrease(0);
    ghost var l3 := page.Lines();
    DecreaseAtTotals(l2, 0);
    page.Decrease(0);
    DecreaseAtTotals(l3, 0);
    total := page.TotalPrice();
    count := page.GetCartTotalNum();
  }

  /** "-" on a meal that is not in the cart changes nothing, however often it
      is pressed, and "+" on one meal leaves the others out of the cart. */
  method IndependentLines() returns (first: bool, second: bool, total: nat)
    ensures !first && second && total == 88
  {
    var page := new PageData();
    ghost var l0 := page.Lines();
    OrderTotalZero(l0);
    page.Decrease(0);
    DecreaseAtTotals(l0, 0);
    page.Decrease(0);
    DecreaseAtTotals(l0, 0);
    page.Increase(1);
    IncreaseAtTotals(l0, 1);
    first := page.Lines()[0].IsAddedToCart();
    second := page.Lines()[1].IsAddedToCart();
    total := page.TotalPrice();
  }
}

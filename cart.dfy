/** The page's cart state: the fixed meal catalog, one `MealData` counter per
    meal, and the `PageData` object that owns them and answers the order-level
    questions the page asks after every click. */
module Cart {
  import opened Pricing

  /** The catalog, in display order. */
  const Meals: seq<Meal> := [
    Meal("沙威玛烤肉", 66),
    Meal("烤三文鱼排", 88),
    Meal("慢炖羊腿", 118),
    Meal("松露披萨船", 68)
  ]

  /** The order total from which delivery is offered. */
  const MinimumDeliveryAmount: nat := 100

  /** One catalog entry wrapped with the number of units the user selected. */
  class MealData {
    var selectQuantity: nat
    const data: Meal

    constructor (meal: Meal)
      ensures data == meal && selectQuantity == 0
    {
      data := meal;
      selectQuantity := 0;
    }

    /** The value this object currently stands for. */
    function Snapshot(): Line
      reads this
    {
      Line(data, selectQuantity)
    }

    /** "+": one more unit, with no upper bound. */
    method Increase()
      modifies this
      ensures selectQuantity == old(selectQuantity) + 1
    {
      selectQuantity := selectQuantity + 1;
    }

    /** "-": one unit fewer, but never below zero. */
    method Decrease()
      modifies this
      ensures old(selectQuantity) == 0 ==> selectQuantity == 0
      ensures old(selectQuantity) > 0 ==> selectQuantity == old(selectQuantity) - 1
    {
      if selectQuantity > 0 {
        selectQuantity := selectQuantity - 1;
      }
    }
  }

  /** The whole page: one `MealData` per catalog entry and the delivery minimum. */
  class PageData {
    const mealsList: seq<MealData>
    const minimumDeliveryAmount: nat

    /** No two positions of the list share an object, so a click on one meal
        cannot change another. */
    predicate Valid() {
      forall i, j :: 0 <= i < j < |mealsList| ==> mealsList[i] != mealsList[j]
    }

    /** The current contents of the cart, one line per meal in catalog order. */
    function Lines(): seq<Line>
      reads mealsList
    {
      seq(|mealsList|, i requires 0 <= i < |mealsList| reads mealsList => mealsList[i].Snapshot())
    }

    /** A fresh page lists every catalog meal once, in catalog order, with
        nothing selected, and asks for at least 100 to deliver. */
    constructor ()
      ensures Valid() && |mealsList| == |Meals|
      ensures forall i :: 0 <= i < |Meals| ==> Lines()[i] == Line(Meals[i], 0)
      ensures forall i :: 0 <= i < |mealsList| ==> fresh(mealsList[i])
      ensures minimumDeliveryAmount == MinimumDeliveryAmount
    {
      var list: seq<MealData> := [];
      for k := 0 to |Meals|
        invariant |list| == k
        invariant forall i :: 0 <= i < k ==> fresh(list[i])
        invariant forall i :: 0 <= i < k ==> list[i].data == Meals[i] && list[i].selectQuantity == 0
        invariant forall i, j :: 0 <= i < j < k ==> list[i] != list[j]
      {
        var item := new MealData(Meals[k]);
        list := list + [item];
      }
      mealsList := list;
      minimumDeliveryAmount := MinimumDeliveryAmount;
    }

    /** "+" on the meal at `index`: only that meal's line changes. */
    method Increase(index: nat)
      requires Valid() && index < |mealsList|
      modifies mealsList[index]
      ensures Lines() == IncreaseAt(old(Lines()), index)
    {
      mealsList[index].Increase();
      assert forall i :: 0 <= i < |mealsList| && i != index ==> mealsList[i] != mealsList[index];
    }

    /** "-" on the meal at `index`: only that meal's line changes. */
    method Decrease(index: nat)
      requires Valid() && index < |mealsList|
      modifies mealsList[index]
      ensures Lines() == DecreaseAt(old(Lines()), index)
    {
      mealsList[index].Decrease();
      assert forall i :: 0 <= i < |mealsList| && i != index ==> mealsList[i] != mealsList[index];
    }

    /** The order total, recomputed from the lines on every read. */
    function TotalPrice(): nat
      reads mealsList
    {
      OrderTotal(Lines())
    }

    /** The number of units in the cart. */
    function GetCartTotalNum(): nat
      reads mealsList
    {
      CartTotalNum(Lines())
    }

    /** Whether the order total reaches the delivery minimum. */
    predicate IsCanDelivery()
      reads mealsList
    {
      CanDeliver(TotalPrice(), minimumDeliveryAmount)
    }

    /** The amount still missing before delivery is offered. */
    function GetNeedCostToDelivery(): (r: int)
      reads mealsList
      ensures r > 0 <==> !IsCanDelivery()
    {
      NeedCostToDelivery(TotalPrice(), minimumDeliveryAmount)
    }
  }
}

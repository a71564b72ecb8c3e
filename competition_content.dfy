/** The embeddable competition widget
    (front/components/CompetitionContent.tsx): a three-step machine, spin,
    build, submit, over the same outfit cart. Its own select handler
    appends without any budget check; the budget is kept only because the
    cart's Add button is disabled for unaffordable products. */
module CompetitionContent {
  import opened Lists
  import opened OutfitBuilder

  datatype Step = Spin | Build | Submit

  class Widget {
    var step: Step
    var shoppingCash: int
    var selected: seq<Item>
    var hasSpun: bool

    predicate Valid()
      reads this
    {
      WithinBudget(shoppingCash, selected) && NonNegativePrices(selected)
    }

    constructor ()
      ensures Valid()
      ensures step == Spin && shoppingCash == 0 && selected == [] && !hasSpun
    {
      step := Spin;
      shoppingCash := 0;
      selected := [];
      hasSpun := false;
      assert TotalSpent([]) == 0;
    }

    /** `handleSpinComplete(amount)`: spin moves on to build with the cash
        won. */
    method SpinComplete(amount: int)
      modifies this`shoppingCash, this`hasSpun, this`step
      ensures shoppingCash == amount && hasSpun && step == Build
      ensures selected == [] && amount >= 0 ==> Valid()
    {
      shoppingCash := amount;
      hasSpun := true;
      step := Build;
      assert TotalSpent([]) == 0;
    }

    /** `handleProductSelect(product)`: appends, with no budget check. */
    method Select(item: Item)
      modifies this`selected
      ensures selected == old(selected) + [item]
    {
      selected := selected + [item];
    }

    /** `handleProductRemove(id)` */
    method Remove(id: string)
      modifies this`selected
      ensures selected == RemoveById(old(selected), id)
    {
      selected := RemoveById(selected, id);
    }

    /** A press of a product's button in the cart: remove when selected,
        add when affordable, nothing when the button is disabled. Through
        the button the budget holds, although `Select` itself never checks
        it. */
    method PressButton(item: Item)
      requires Valid() && item.price >= 0
      modifies this`selected
      ensures Valid()
      ensures match ButtonPress(shoppingCash, old(selected), item)
        case RemoveItem(id) => selected == RemoveById(old(selected), id)
        case AddItem(x) => selected == old(selected) + [x]
        case Disabled => selected == old(selected)
    {
      match ButtonPress(shoppingCash, selected, item)
      case RemoveItem(id) =>
        RemoveWithinBudget(shoppingCash, selected, id);
        Remove(id);
        assert forall i :: 0 <= i < |selected| ==> selected[i] in old(selected);
      case AddItem(x) =>
        AddWithinBudget(shoppingCash, selected, x);
        Select(x);
      case Disabled =>
    }

    /** `handleSubmitOutfit()`: build moves on to submit; the selection and
        the cash stay as they are. */
    method SubmitOutfit()
      modifies this`step
      ensures step == Submit
    {
      step := Submit;
    }

    /** `resetCompetition()`: back to the spin step with no cash, nothing
        selected and no spin recorded. */
    method Reset()
      modifies this`step, this`shoppingCash, this`selected, this`hasSpun
      ensures Valid()
      ensures step == Spin && shoppingCash == 0 && selected == [] && !hasSpun
    {
      step := Spin;
      shoppingCash := 0;
      selected := [];
      hasSpun := false;
      assert TotalSpent([]) == 0;
    }

    /** The "Remaining Cash" shown after submitting; never negative while
        the budget holds. */
    function RemainingShown(): (r: int)
      reads this
      ensures r == shoppingCash - TotalSpent(selected)
      ensures Valid() ==> r >= 0
    {
      RemainingCash(shoppingCash, selected)
    }
  }

  /** Without the disabled button, the widget's select breaks the budget:
      with 50 to spend, selecting an 80 product leaves a total of 80. */
  lemma SelectAloneOverspends()
    ensures var item := Item("2", "Denim Jeans", 80, "bottoms", "Denim Co");
      && WithinBudget(50, [])
      && !WithinBudget(50, [] + [item])
      && ButtonPress(50, [], item) == Disabled
  {
    var item := Item("2", "Denim Jeans", 80, "bottoms", "Denim Co");
    assert [] + [item] == [item];
    assert [item][..0] == [];
    assert TotalSpent([item]) == TotalSpent([]) + 80;
    assert TotalSpent([]) == 0;
  }
}

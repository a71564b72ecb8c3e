/** The outfit cart of the style competition
    (front/components/OutfitBuilder.tsx): the category tab, what has been
    spent, what is left, and what the Add/Remove button of a product does.
    Everything here is derived from the props; prices are whole amounts. */
module OutfitBuilder {
  import opened Lists

  /** A product offered in the competition (its picture is left out). */
  datatype Item = Item(id: string, name: string, price: int, category: string, shopName: string)

  /** The products shown under the active tab: "all" shows everything,
      any other tab the products of exactly that category, in order. */
  function ItemsInCategory(available: seq<Item>, active: string): (r: seq<Item>)
    ensures active == "all" ==> r == available
    ensures forall x :: x in r <==> x in available && (active == "all" || x.category == active)
    ensures forall x {:trigger multiset(r)[x]} :: multiset(r)[x] == if (active == "all" || x.category == active) then multiset(available)[x] else 0
    ensures IsSubsequence(r, available)
  {
    var keep := (x: Item) => active == "all" || x.category == active;
    FilterIsSubsequence(available, keep);
    FilterCount(available, keep);
    if active == "all" then
      FilterKeepsAll(available, keep);
      Filter(available, keep)
    else Filter(available, keep)
  }

  function Price(x: Item): int { x.price }

  /** `selectedProducts.reduce((sum, p) => sum + p.price, 0)` */
  function TotalSpent(selected: seq<Item>): int {
    Sum(selected, Price)
  }

  /** `shoppingCash - totalSpent` */
  function RemainingCash(cash: int, selected: seq<Item>): int {
    cash - TotalSpent(selected)
  }

  /** `canAfford(price)`: the price fits in what is left. */
  predicate CanAfford(cash: int, selected: seq<Item>, price: int) {
    RemainingCash(cash, selected) >= price
  }

  /** `isProductSelected(id)` */
  predicate IsSelected(selected: seq<Item>, id: string) {
    exists i :: 0 <= i < |selected| && selected[i].id == id
  }

  predicate WithinBudget(cash: int, selected: seq<Item>) {
    TotalSpent(selected) <= cash
  }

  predicate NonNegativePrices(s: seq<Item>) {
    forall i :: 0 <= i < |s| ==> s[i].price >= 0
  }

  /** `selectedProducts.filter(p => p.id !== id)`: every entry with that id
      goes, the others stay in order. */
  function RemoveById(selected: seq<Item>, id: string): (r: seq<Item>)
    ensures forall x :: x in r <==> x in selected && x.id != id
    ensures forall x {:trigger multiset(r)[x]} :: multiset(r)[x] == if x.id != id then multiset(selected)[x] else 0
    ensures IsSubsequence(r, selected)
    ensures !IsSelected(r, id)
  {
    var keep := (x: Item) => x.id != id;
    FilterIsSubsequence(selected, keep);
    FilterCount(selected, keep);
    var r := Filter(selected, keep);
    assert forall i :: 0 <= i < |r| ==> r[i] in r;
    r
  }

  /** Adding a product whose price fits in what is left keeps the total
      within the cash. */
  lemma AddWithinBudget(cash: int, selected: seq<Item>, item: Item)
    requires CanAfford(cash, selected, item.price)
    ensures WithinBudget(cash, selected + [item])
  {
    SumAppend(selected, [item], Price);
    assert [item][..0] == [];
  }

  /** Removing products never raises the total, so it keeps the budget. */
  lemma RemoveWithinBudget(cash: int, selected: seq<Item>, id: string)
    requires NonNegativePrices(selected)
    requires WithinBudget(cash, selected)
    ensures WithinBudget(cash, RemoveById(selected, id))
  {
    SumFilterLe(selected, (x: Item) => x.id != id, Price);
  }

  /** What pressing a product's button does. */
  datatype Press = RemoveItem(id: string) | AddItem(item: Item) | Disabled

  /** A selected product's button removes it; an unselected product's
      button adds it, and is disabled when the product is unaffordable. */
  function ButtonPress(cash: int, selected: seq<Item>, item: Item): (p: Press)
    ensures p == RemoveItem(item.id) <==> IsSelected(selected, item.id)
    ensures p == AddItem(item) <==> !IsSelected(selected, item.id) && CanAfford(cash, selected, item.price)
    ensures p == Disabled <==> !IsSelected(selected, item.id) && !CanAfford(cash, selected, item.price)
  {
    if IsSelected(selected, item.id) then RemoveItem(item.id)
    else if CanAfford(cash, selected, item.price) then AddItem(item)
    else Disabled
  }
}

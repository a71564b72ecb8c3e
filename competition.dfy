/** The style-competition page (front/app/competition/page.tsx): the
    visitor spins for shopping cash, builds an outfit within it, and
    submits the outfit, which is appended to the submissions kept in the
    browser's storage. The storage keys the page reads and writes are
    fields of the page object here. */
module Competition {
  import opened Lists
  import opened OutfitBuilder

  datatype Step = Welcome | Spin | Build | Submit

  /** A stored submission: `{ name, description, products, totalCost,
      submittedAt }`, with the time as a number. */
  datatype Entry = Entry(name: string, description: string, products: seq<Item>, totalCost: int, submittedAt: int)

  class CompetitionPage {
    var step: Step
    var shoppingCash: int
    var hasSpun: bool
    var selected: seq<Item>
    var participantName: string
    var outfitDescription: string
    var isSubmitted: bool

    /** `competition_participated` is set */
    var storedParticipated: bool
    /** `competition_spun` is set */
    var storedSpun: bool
    /** `shopping_cash`, already parsed; missing reads as 0 */
    var storedCash: int
    /** `competition_submissions` */
    var storedEntries: seq<Entry>

    /** The budget invariant: what is selected fits in the cash, and no
        price is negative. */
    predicate Valid()
      reads this
    {
      WithinBudget(shoppingCash, selected) && NonNegativePrices(selected)
    }

    /** The first render, before the mount effect runs; the storage is
        whatever an earlier visit left. */
    constructor (storedParticipated: bool, storedSpun: bool, storedCash: int, storedEntries: seq<Entry>)
      ensures Valid()
      ensures step == Welcome && shoppingCash == 0 && !hasSpun && selected == []
      ensures participantName == "" && outfitDescription == "" && !isSubmitted
      ensures this.storedParticipated == storedParticipated && this.storedSpun == storedSpun
      ensures this.storedCash == storedCash && this.storedEntries == storedEntries
    {
      step := Welcome;
      shoppingCash := 0;
      hasSpun := false;
      selected := [];
      participantName := "";
      outfitDescription := "";
      isSubmitted := false;
      this.storedParticipated := storedParticipated;
      this.storedSpun := storedSpun;
      this.storedCash := storedCash;
      this.storedEntries := storedEntries;
    }

    /** The mount effect: a visitor who already took part goes straight to
        the submitted step; one who only spun goes to the build step with
        the stored cash; anyone else stays where they are. */
    method Mount()
      modifies this`isSubmitted, this`step, this`hasSpun, this`shoppingCash
      ensures old(Valid()) && selected == [] && storedCash >= 0 ==> Valid()
      ensures storedParticipated ==>
        isSubmitted && step == Submit && hasSpun == old(hasSpun) && shoppingCash == old(shoppingCash)
      ensures !storedParticipated && storedSpun ==>
        hasSpun && shoppingCash == storedCash && step == Build && isSubmitted == old(isSubmitted)
      ensures !storedParticipated && !storedSpun ==>
        step == old(step) && hasSpun == old(hasSpun) && shoppingCash == old(shoppingCash) && isSubmitted == old(isSubmitted)
    {
      if storedParticipated {
        isSubmitted := true;
        step := Submit;
      } else if storedSpun {
        hasSpun := true;
        shoppingCash := storedCash;
        step := Build;
      }
      assert TotalSpent([]) == 0 && NonNegativePrices([]);
    }

    /** `handleSpinWin(amount)`: the cash becomes the amount won, the spin
        is recorded in memory and in storage, and the page moves on to the
        build step (after a delay, collapsed here). */
    method SpinWin(amount: int)
      modifies this`shoppingCash, this`hasSpun, this`storedSpun, this`storedCash, this`step
      ensures selected == [] && amount >= 0 ==> Valid()
      ensures shoppingCash == amount && hasSpun && storedSpun && storedCash == amount && step == Build
    {
      shoppingCash := amount;
      hasSpun := true;
      storedSpun := true;
      storedCash := amount;
      step := Build;
      assert TotalSpent([]) == 0 && NonNegativePrices([]);
    }

    /** `handleProductSelect(product)`: appended only when the new total is
        at most the cash; otherwise nothing changes. */
    method SelectProduct(item: Item)
      requires Valid() && item.price >= 0
      modifies this`selected
      ensures Valid()
      ensures TotalSpent(old(selected)) + item.price <= shoppingCash ==> selected == old(selected) + [item]
      ensures TotalSpent(old(selected)) + item.price > shoppingCash ==> selected == old(selected)
    {
      var totalCost := TotalSpent(selected) + item.price;
      if totalCost <= shoppingCash {
        AddWithinBudget(shoppingCash, selected, item);
        selected := selected + [item];
      }
    }

    /** `handleProductRemove(id)`: every selected entry with that id goes,
        the others keep their order. */
    method RemoveProduct(id: string)
      requires Valid()
      modifies this`selected
      ensures Valid()
      ensures selected == RemoveById(old(selected), id)
    {
      RemoveWithinBudget(shoppingCash, selected, id);
      selected := RemoveById(selected, id);
      assert forall i :: 0 <= i < |selected| ==> selected[i] in old(selected);
    }

    /** `handleSubmitOutfit()`: does nothing unless a name is given and
        something is selected; otherwise exactly one entry, costing the sum
        of the selected prices, is appended to the stored submissions, the
        participation is recorded, and the page shows the submitted step. */
    method SubmitOutfit(now: int)
      modifies this`storedEntries, this`storedParticipated, this`isSubmitted, this`step
      ensures participantName == "" || selected == [] ==>
        && storedEntries == old(storedEntries) && storedParticipated == old(storedParticipated)
        && isSubmitted == old(isSubmitted) && step == old(step)
      ensures participantName != "" && selected != [] ==>
        && storedEntries == old(storedEntries)
             + [Entry(participantName, outfitDescription, selected, TotalSpent(selected), now)]
        && storedParticipated && isSubmitted && step == Submit
    {
      if participantName != "" && |selected| > 0 {
        var entry := Entry(participantName, outfitDescription, selected, TotalSpent(selected), now);
        storedEntries := storedEntries + [entry];
        storedParticipated := true;
        isSubmitted := true;
        step := Submit;
      }
    }
  }
}

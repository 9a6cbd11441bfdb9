/** The scenarios of the module's demonstration block, stated on the value
    model and replayed on `Product` objects. */
module Demo {
  import opened PyText
  import opened Products

  const Bose := "Bose QuietComfort Earbuds"
  const Mac := "MacBook Air M2"

  /** 50 of the 500 earbuds at 250 cost 12500, leave 450 and keep the item active. */
  lemma BoseScenario()
    ensures Construct(Bose, 250, 500) == Ok(ProductState(Bose, 250, 500, true))
    ensures BuyStep(ProductState(Bose, 250, 500, true), 50)
            == Step(Ok(12500), ProductState(Bose, 250, 450, true))
  {
  }

  /** Buying all 100 laptops at 1450 costs 145000 and deactivates the item;
      a further purchase is then refused for lack of stock. */
  lemma MacScenario()
    ensures Construct(Mac, 1450, 100) == Ok(ProductState(Mac, 1450, 100, true))
    ensures BuyStep(ProductState(Mac, 1450, 100, true), 100)
            == Step(Ok(145000), ProductState(Mac, 1450, 0, false))
    ensures BuyStep(ProductState(Mac, 1450, 0, false), 1).outcome == Fail(InsufficientStock)
  {
  }

  /** Restocking the earbuds to 1000 leaves them active. */
  lemma RestockScenario()
    ensures SetQuantityStep(ProductState(Bose, 250, 450, true), 1000)
            == Step(Ok(()), ProductState(Bose, 250, 1000, true))
  {
  }

  /** Blank names are refused. */
  lemma RejectionScenarios()
    ensures Construct("", 10, 5) == Fail(EmptyName)
    ensures Construct(" \t ", 10, 5) == Fail(EmptyName)
  {
  }

  /** A negative purchase quantity is refused and the stock is kept. */
  lemma NegativePurchaseScenario()
    ensures BuyStep(ProductState(Bose, 250, 500, true), -5)
            == Step(Fail(NonPositivePurchase), ProductState(Bose, 250, 500, true))
  {
  }

  /** The summaries the demonstration shows after the two purchases and after
      restocking. */
  lemma ShowBoseAfterPurchase()
    ensures Summary(ProductState(Bose, 250, 450, true))
            == "Bose QuietComfort Earbuds, Price: 250, Quantity: 450"
  {
  }

  lemma ShowMacAfterPurchase()
    ensures Summary(ProductState(Mac, 1450, 0, false)) == "MacBook Air M2, Price: 1450, Quantity: 0"
  {
  }

  lemma ShowBoseAfterRestock()
    ensures Summary(ProductState(Bose, 250, 1000, true))
            == "Bose QuietComfort Earbuds, Price: 250, Quantity: 1000"
  {
  }

  /** The demonstration run on objects: the two purchases, the flag, both
      summaries, and the earbuds' summary after restocking. */
  method RunDemo() returns (boseTotal: int, macTotal: int, macActive: bool,
                            boseShown: string, macShown: string, boseRestocked: string)
    ensures boseTotal == 12500 && macTotal == 145000 && !macActive
    ensures boseShown == "Bose QuietComfort Earbuds, Price: 250, Quantity: 450"
    ensures macShown == "MacBook Air M2, Price: 1450, Quantity: 0"
    ensures boseRestocked == "Bose QuietComfort Earbuds, Price: 250, Quantity: 1000"
  {
    BoseScenario();
    MacScenario();
    ShowBoseAfterPurchase();
    ShowMacAfterPurchase();
    ShowBoseAfterRestock();
    var b := Create(Bose, 250, 500);
    var m := Create(Mac, 1450, 100);
    var bose := b.value;
    var mac := m.value;
    var r1 := bose.Buy(50);
    var r2 := mac.Buy(100);
    boseTotal := r1.value;
    macTotal := r2.value;
    macActive := mac.IsActive();
    boseShown := bose.Show();
    macShown := mac.Show();
    var _ := bose.SetQuantity(1000);
    boseRestocked := bose.Show();
  }
}

/** The demonstration menu and orders: each demonstration order's stated
    total is the cart total of its lines, so an order placed with the same
    cart would carry the same amount. */
module MockData {
  import opened Types
  import opened Wrappers
  import opened Pricing
  import AppContext

  /** The demonstration items the orders use, with their descriptions and flags. */
  const MasalaTea := MenuItem("1", "Masala Tea", "Traditional spiced tea with ginger, cardamom, and cloves",
                              40.0, Tea, None, None, Some(true), None, true)
  const BlackTea := MenuItem("2", "Black Tea", "Strong Nepali black tea served hot",
                             25.0, Tea, None, None, None, None, true)
  const MilkTea := MenuItem("3", "Milk Tea", "Creamy tea with fresh milk",
                            35.0, Tea, None, None, None, Some(true), true)
  const Samosa := MenuItem("5", "Samosa", "Crispy pastry filled with spiced potatoes",
                           30.0, Snacks, None, None, Some(true), None, true)
  const Pakoda := MenuItem("6", "Pakoda", "Deep fried vegetable fritters",
                           50.0, Snacks, None, None, None, None, true)
  const BreadButter := MenuItem("7", "Bread Butter", "Toasted bread with butter",
                                35.0, Snacks, None, None, None, None, true)

  /** The lines of the three demonstration orders. */
  const FirstLines := [CartItem(MasalaTea, 2), CartItem(Samosa, 1)]
  const SecondLines := [CartItem(MilkTea, 3), CartItem(Pakoda, 2)]
  const ThirdLines := [CartItem(BlackTea, 4), CartItem(BreadButter, 2)]

  /** The stated totals 110, 205 and 170 are the carts' totals, and so the
      totals of the orders those carts would make. */
  lemma StatedTotalsMatch(h: AppContext.OrderHeader)
    ensures CartTotal(FirstLines) == 110.0
    ensures CartTotal(SecondLines) == 205.0
    ensures CartTotal(ThirdLines) == 170.0
    ensures AppContext.BuildOrder(h, 3, FirstLines).totalAmount == 110.0
  {
    TwoLines(FirstLines[0], FirstLines[1]);
    TwoLines(SecondLines[0], SecondLines[1]);
    TwoLines(ThirdLines[0], ThirdLines[1]);
  }

  lemma TwoLines(a: CartItem, b: CartItem)
    ensures CartTotal([a, b]) == LineTotal(a) + LineTotal(b)
  {
    CartTotalAppend([a], [b]);
    assert [a] + [b] == [a, b];
    assert [a][..0] == [] && [b][..0] == [];
    assert CartTotal([a]) == LineTotal(a);
    assert CartTotal([b]) == LineTotal(b);
  }

  /** A 100 rupee item at 20% off is charged 80 a unit; two of them come to 160. */
  lemma TwentyPercentOff()
    ensures var item := MenuItem("x", "Special", "", 100.0, Tea, None, Some(20.0), None, None, true);
      ItemPrice(item) == 80.0 && CartTotal([CartItem(item, 2)]) == 160.0 && Round(ItemPrice(item)) == 80
  {
    var item := MenuItem("x", "Special", "", 100.0, Tea, None, Some(20.0), None, None, true);
    assert [CartItem(item, 2)][..0] == [];
    RoundWhole(80);
  }
}

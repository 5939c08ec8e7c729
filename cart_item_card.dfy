/** The cart line card: its price label and its minus, plus and remove buttons. */
module CartItemCard {
  import opened Types
  import opened Pricing
  import Cart

  /** The rounded unit price the card shows. */
  function ShownUnitPrice(line: CartItem): (n: int)
    ensures n as real - 0.5 <= ItemPrice(line.item) < n as real + 0.5
  {
    Round(ItemPrice(line.item))
  }

  /** Minus: the quantity goes down by one; at one the line leaves the cart. */
  function Minus(cart: seq<CartItem>, line: CartItem): (r: seq<CartItem>)
    ensures line.quantity <= 1 ==> r == Cart.RemoveFromCart(cart, line.item.id)
    ensures line.quantity > 1 ==> |r| == |cart|
    ensures line.quantity > 1 ==> forall i :: 0 <= i < |cart| ==>
      r[i] == if cart[i].item.id == line.item.id then CartItem(cart[i].item, line.quantity - 1) else cart[i]
  {
    Cart.UpdateQuantity(cart, line.item.id, line.quantity - 1)
  }

  /** Plus: the quantity goes up by one. */
  function Plus(cart: seq<CartItem>, line: CartItem): (r: seq<CartItem>)
    ensures line.quantity + 1 <= 0 ==> r == Cart.RemoveFromCart(cart, line.item.id)
    ensures line.quantity >= 0 ==> |r| == |cart|
    ensures line.quantity >= 0 ==> forall i :: 0 <= i < |cart| ==>
      r[i] == if cart[i].item.id == line.item.id then CartItem(cart[i].item, line.quantity + 1) else cart[i]
  {
    Cart.UpdateQuantity(cart, line.item.id, line.quantity + 1)
  }

  /** The remove button. */
  function Remove(cart: seq<CartItem>, line: CartItem): (r: seq<CartItem>)
    ensures !Cart.Contains(r, line.item.id)
    ensures forall l :: l in r <==> l in cart && l.item.id != line.item.id
  {
    Cart.RemoveFromCart(cart, line.item.id)
  }

  /** Plus on a line adds one unit to the count and one unit price to the total. */
  lemma PlusSums(cart: seq<CartItem>, k: int)
    requires Cart.UniqueIds(cart) && 0 <= k < |cart| && cart[k].quantity >= 0
    ensures CartItemCount(Plus(cart, cart[k])) == CartItemCount(cart) + 1
    ensures CartTotal(Plus(cart, cart[k])) == CartTotal(cart) + ItemPrice(cart[k].item)
  {
    var r := Plus(cart, cart[k]);
    assert forall i :: 0 <= i < |cart| && i != k ==> r[i] == cart[i];
    Cart.OneMoreSums(cart, r, k);
  }

  /** Minus on a line with more than one unit takes one unit from the count
      and one unit price from the total. */
  lemma MinusSums(cart: seq<CartItem>, k: int)
    requires Cart.UniqueIds(cart) && 0 <= k < |cart| && cart[k].quantity > 1
    ensures CartItemCount(Minus(cart, cart[k])) == CartItemCount(cart) - 1
    ensures CartTotal(Minus(cart, cart[k])) == CartTotal(cart) - ItemPrice(cart[k].item)
  {
    var r := Minus(cart, cart[k]);
    assert forall i :: 0 <= i < |cart| && i != k ==> r[i] == cart[i];
    assert cart[k] == CartItem(r[k].item, r[k].quantity + 1);
    Cart.OneMoreSums(r, cart, k);
  }

  /** Minus on the line that plus has just re-rendered gives the cart back. */
  lemma PlusThenMinus(cart: seq<CartItem>, k: int)
    requires Cart.UniqueIds(cart) && 0 <= k < |cart| && cart[k].quantity >= 1
    ensures var after := Plus(cart, cart[k]); Minus(after, after[k]) == cart
  {
    var after := Plus(cart, cart[k]);
    var back := Minus(after, after[k]);
    assert |back| == |cart|;
    forall i | 0 <= i < |cart|
      ensures back[i] == cart[i]
    {
    }
  }
}

/** The discounted-price formula and the sums built on it. The same formula
    is written out in the provider's order total and item snapshots, in the
    customer menu's cart total, and in both menu and cart cards. */
module Pricing {
  import opened Types
  import opened Wrappers

  /** A discount counts when it is present and non-zero (JavaScript truthiness). */
  predicate HasDiscount(discount: Option<real>) {
    discount.Some? && discount.value != 0.0
  }

  /** `discount ? price * (1 - discount / 100) : price`. */
  function DiscountedPrice(price: real, discount: Option<real>): (r: real)
    ensures !HasDiscount(discount) ==> r == price
    ensures HasDiscount(discount) ==> price - r == price * discount.value / 100.0
    ensures 0.0 <= price && (HasDiscount(discount) ==> 0.0 <= discount.value <= 100.0) ==> 0.0 <= r <= price
    ensures r == price <==> !HasDiscount(discount) || price == 0.0
  {
    if HasDiscount(discount) then price * (1.0 - discount.value / 100.0) else price
  }

  /** The unit price a customer pays for a menu item. */
  function ItemPrice(m: MenuItem): real {
    DiscountedPrice(m.price, m.discount)
  }

  function LineTotal(line: CartItem): real {
    ItemPrice(line.item) * line.quantity as real
  }

  /** `cart.reduce((sum, item) => sum + price * item.quantity, 0)`, left to right. */
  function CartTotal(cart: seq<CartItem>): (r: real)
    ensures (forall i :: 0 <= i < |cart| ==> LineTotal(cart[i]) >= 0.0) ==> r >= 0.0
  {
    if cart == [] then 0.0 else CartTotal(cart[..|cart| - 1]) + LineTotal(cart[|cart| - 1])
  }

  /** `cart.reduce((sum, item) => sum + item.quantity, 0)`. */
  function CartItemCount(cart: seq<CartItem>): (r: int)
    ensures (forall i :: 0 <= i < |cart| ==> cart[i].quantity >= 1) ==> r >= |cart|
  {
    if cart == [] then 0 else CartItemCount(cart[..|cart| - 1]) + cart[|cart| - 1].quantity
  }

  /** The frozen copy of a cart line that goes into an order. */
  function Snapshot(line: CartItem): (s: OrderItem)
    ensures s.price * s.quantity as real == LineTotal(line)
    ensures s.id == line.item.id && s.name == line.item.name && s.quantity == line.quantity
  {
    OrderItem(line.item.id, line.item.name, ItemPrice(line.item), line.quantity)
  }

  function Snapshots(cart: seq<CartItem>): (items: seq<OrderItem>)
    ensures |items| == |cart|
    ensures forall i :: 0 <= i < |cart| ==> items[i] == Snapshot(cart[i])
  {
    seq(|cart|, i requires 0 <= i < |cart| => Snapshot(cart[i]))
  }

  /** What one snapshot line comes to: its price times its quantity. */
  function ItemTotal(it: OrderItem): real {
    it.price * it.quantity as real
  }

  /** An order's total as its snapshots give it: the sum of its lines. */
  function SnapshotTotal(items: seq<OrderItem>): real {
    if items == [] then 0.0
    else SnapshotTotal(items[..|items| - 1]) + ItemTotal(items[|items| - 1])
  }

  /** The snapshots of a cart without its last line are the snapshots of its other lines. */
  lemma SnapshotsFront(cart: seq<CartItem>)
    requires cart != []
    ensures Snapshots(cart)[..|cart| - 1] == Snapshots(cart[..|cart| - 1])
  {
  }

  /** The snapshots of a cart add up to the cart's total. */
  lemma {:induction false} SnapshotTotalMatchesCart(cart: seq<CartItem>)
    ensures SnapshotTotal(Snapshots(cart)) == CartTotal(cart)
  {
    if cart != [] {
      var n := |cart|;
      var items := Snapshots(cart);
      var front := cart[..n - 1];
      calc {
        SnapshotTotal(items);
        SnapshotTotal(items[..n - 1]) + ItemTotal(items[n - 1]);
        { SnapshotsFront(cart); }
        SnapshotTotal(Snapshots(front)) + ItemTotal(items[n - 1]);
        { SnapshotTotalMatchesCart(front); }
        CartTotal(front) + ItemTotal(Snapshot(cart[n - 1]));
        CartTotal(front) + LineTotal(cart[n - 1]);
      }
    }
  }

  lemma {:induction false} CartTotalAppend(a: seq<CartItem>, b: seq<CartItem>)
    ensures CartTotal(a + b) == CartTotal(a) + CartTotal(b)
  {
    if b != [] {
      assert (a + b)[..|a + b| - 1] == a + b[..|b| - 1];
      CartTotalAppend(a, b[..|b| - 1]);
    } else {
      assert a + b == a;
    }
  }

  lemma {:induction false} CartItemCountAppend(a: seq<CartItem>, b: seq<CartItem>)
    ensures CartItemCount(a + b) == CartItemCount(a) + CartItemCount(b)
  {
    if b != [] {
      assert (a + b)[..|a + b| - 1] == a + b[..|b| - 1];
      CartItemCountAppend(a, b[..|b| - 1]);
    } else {
      assert a + b == a;
    }
  }

  /** `Math.round`: the nearest integer, halves rounded up. Every amount the
      pages show goes through it. */
  function Round(x: real): (n: int)
    ensures n as real - 0.5 <= x < n as real + 0.5
  {
    (x + 0.5).Floor
  }

  /** Whole amounts are shown as they are. */
  lemma RoundWhole(n: int)
    ensures Round(n as real) == n
  {
  }
}

/** The cart reducers of the provider: list operations keyed by menu item id. */
module Cart {
  import opened Types
  import opened Pricing
  import Seqs

  /** Some line of the cart carries menu item `id`. */
  predicate Contains(cart: seq<CartItem>, id: string) {
    exists i :: 0 <= i < |cart| && cart[i].item.id == id
  }

  /** No two lines carry the same menu item id. */
  predicate UniqueIds(cart: seq<CartItem>) {
    forall i, j :: 0 <= i < |cart| && 0 <= j < |cart| && cart[i].item.id == cart[j].item.id ==> i == j
  }

  /** Every line has a quantity of at least one. */
  predicate PositiveQuantities(cart: seq<CartItem>) {
    forall i :: 0 <= i < |cart| ==> cart[i].quantity >= 1
  }

  /** `addToCart`: one more of an item already in the cart, otherwise a new
      line with quantity 1 at the end. An existing line keeps the fields it
      was added with. */
  function AddToCart(cart: seq<CartItem>, item: MenuItem): (r: seq<CartItem>)
    ensures Contains(cart, item.id) ==> |r| == |cart|
    ensures Contains(cart, item.id) ==> forall i :: 0 <= i < |cart| ==>
      r[i].item == cart[i].item
      && r[i].quantity == (if cart[i].item.id == item.id then cart[i].quantity + 1 else cart[i].quantity)
    ensures !Contains(cart, item.id) ==> r == cart + [CartItem(item, 1)]
    ensures Contains(r, item.id)
    ensures UniqueIds(cart) ==> UniqueIds(r)
    ensures PositiveQuantities(cart) ==> PositiveQuantities(r)
  {
    if Contains(cart, item.id) then
      seq(|cart|, i requires 0 <= i < |cart| =>
        if cart[i].item.id == item.id then cart[i].(quantity := cart[i].quantity + 1) else cart[i])
    else
      var r := cart + [CartItem(item, 1)];
      assert r[|cart|].item.id == item.id;
      r
  }

  /** `removeFromCart`: drop the line for `id`, keeping the other lines in order. */
  function RemoveFromCart(cart: seq<CartItem>, id: string): (r: seq<CartItem>)
    ensures !Contains(r, id)
    ensures forall line :: line in r <==> line in cart && line.item.id != id
    ensures !Contains(cart, id) ==> r == cart
  {
    var keep := (line: CartItem) => line.item.id != id;
    if Contains(cart, id) then Seqs.Filter(cart, keep)
    else Seqs.FilterAllPass(cart, keep); Seqs.Filter(cart, keep)
  }

  /** In a cart with unique ids, removing a line's id takes out that line
      alone and keeps the others in order. */
  lemma RemoveIsSplice(cart: seq<CartItem>, k: int)
    requires UniqueIds(cart) && 0 <= k < |cart|
    ensures RemoveFromCart(cart, cart[k].item.id) == cart[..k] + cart[k + 1..]
  {
    var id := cart[k].item.id;
    Seqs.FilterRemovesOne(cart, (line: CartItem) => line.item.id != id, k);
  }

  /** `updateQuantity`: a quantity of zero or less removes the line; any
      other quantity overwrites the line's quantity, without an upper bound. */
  function UpdateQuantity(cart: seq<CartItem>, id: string, quantity: int): (r: seq<CartItem>)
    ensures quantity <= 0 ==> r == RemoveFromCart(cart, id)
    ensures quantity > 0 ==> |r| == |cart|
    ensures quantity > 0 ==> forall i :: 0 <= i < |cart| ==>
      r[i].item == cart[i].item
      && r[i].quantity == (if cart[i].item.id == id then quantity else cart[i].quantity)
    ensures !Contains(cart, id) ==> r == cart
  {
    if quantity <= 0 then
      RemoveFromCart(cart, id)
    else
      seq(|cart|, i requires 0 <= i < |cart| =>
        if cart[i].item.id == id then cart[i].(quantity := quantity) else cart[i])
  }

  /** Filtering a cart keeps its ids unique. */
  lemma {:induction false} FilterKeepsUniqueIds(cart: seq<CartItem>, keep: CartItem -> bool)
    requires UniqueIds(cart)
    ensures UniqueIds(Seqs.Filter(cart, keep))
  {
    if cart != [] {
      var rest := cart[1..];
      assert UniqueIds(rest) by {
        forall i, j | 0 <= i < |rest| && 0 <= j < |rest| && rest[i].item.id == rest[j].item.id ensures i == j {
          assert cart[i + 1].item.id == cart[j + 1].item.id;
        }
      }
      FilterKeepsUniqueIds(rest, keep);
      var f := Seqs.Filter(rest, keep);
      forall k | 0 <= k < |f| ensures f[k].item.id != cart[0].item.id {
        assert f[k] in rest;
        var m :| 0 <= m < |rest| && rest[m] == f[k];
        assert cart[m + 1] == f[k];
      }
    }
  }

  /** Removing a line keeps the ids unique and the quantities positive. */
  lemma RemoveKeepsInvariants(cart: seq<CartItem>, id: string)
    ensures UniqueIds(cart) ==> UniqueIds(RemoveFromCart(cart, id))
    ensures PositiveQuantities(cart) ==> PositiveQuantities(RemoveFromCart(cart, id))
  {
    var r := RemoveFromCart(cart, id);
    if PositiveQuantities(cart) {
      forall i | 0 <= i < |r| ensures r[i].quantity >= 1 {
        assert r[i] in cart;
      }
    }
    if UniqueIds(cart) {
      FilterKeepsUniqueIds(cart, (line: CartItem) => line.item.id != id);
    }
  }

  /** Updating a quantity keeps the ids unique and the quantities positive. */
  lemma UpdateKeepsInvariants(cart: seq<CartItem>, id: string, quantity: int)
    ensures UniqueIds(cart) ==> UniqueIds(UpdateQuantity(cart, id, quantity))
    ensures PositiveQuantities(cart) ==> PositiveQuantities(UpdateQuantity(cart, id, quantity))
  {
    RemoveKeepsInvariants(cart, id);
  }

  /** Changing one line of a cart changes its item count by exactly that
      line's difference. */
  lemma {:induction false} PointUpdateCount(a: seq<CartItem>, b: seq<CartItem>, k: int)
    requires |a| == |b| && 0 <= k < |a|
    requires forall i :: 0 <= i < |a| && i != k ==> a[i] == b[i]
    ensures CartItemCount(b) == CartItemCount(a) - a[k].quantity + b[k].quantity
  {
    var n := |a|;
    if k == n - 1 {
      assert a[..n - 1] == b[..n - 1];
    } else {
      PointUpdateCount(a[..n - 1], b[..n - 1], k);
    }
  }

  /** Changing one line of a cart changes its total by exactly that line's
      difference. */
  lemma {:induction false} PointUpdateTotal(a: seq<CartItem>, b: seq<CartItem>, k: int)
    requires |a| == |b| && 0 <= k < |a|
    requires forall i :: 0 <= i < |a| && i != k ==> a[i] == b[i]
    ensures CartTotal(b) == CartTotal(a) - LineTotal(a[k]) + LineTotal(b[k])
  {
    var n := |a|;
    var fa, fb := a[..n - 1], b[..n - 1];
    if k == n - 1 {
      assert fa == fb;
    } else {
      assert fa[k] == a[k] && fb[k] == b[k] && a[n - 1] == b[n - 1];
      calc {
        CartTotal(b);
        CartTotal(fb) + LineTotal(b[n - 1]);
        { PointUpdateTotal(fa, fb, k); }
        CartTotal(fa) - LineTotal(a[k]) + LineTotal(b[k]) + LineTotal(a[n - 1]);
      }
    }
  }

  /** Changing one line of a cart changes its item count and its total by
      exactly that line's difference. */
  lemma PointUpdateSums(a: seq<CartItem>, b: seq<CartItem>, k: int)
    requires |a| == |b| && 0 <= k < |a|
    requires forall i :: 0 <= i < |a| && i != k ==> a[i] == b[i]
    ensures CartItemCount(b) == CartItemCount(a) - a[k].quantity + b[k].quantity
    ensures CartTotal(b) == CartTotal(a) - LineTotal(a[k]) + LineTotal(b[k])
  {
    PointUpdateCount(a, b, k);
    PointUpdateTotal(a, b, k);
  }

  /** One more unit on a line adds one unit price to the line's total. */
  lemma OneMoreLineTotal(line: CartItem)
    ensures LineTotal(CartItem(line.item, line.quantity + 1)) == LineTotal(line) + ItemPrice(line.item)
  {
    var p := ItemPrice(line.item);
    var q := line.quantity as real;
    assert p * (q + 1.0) == p * q + p;
  }

  /** A cart that differs from another only by one more unit on line `k`. */
  lemma OneMoreSums(a: seq<CartItem>, b: seq<CartItem>, k: int)
    requires |a| == |b| && 0 <= k < |a|
    requires forall i :: 0 <= i < |a| && i != k ==> a[i] == b[i]
    requires b[k] == CartItem(a[k].item, a[k].quantity + 1)
    ensures CartItemCount(b) == CartItemCount(a) + 1
    ensures CartTotal(b) == CartTotal(a) + ItemPrice(a[k].item)
  {
    PointUpdateSums(a, b, k);
    OneMoreLineTotal(a[k]);
  }

  /** Adding an item already in the cart at line `k` adds one to the item
      count and that line's discounted price (the price it was added with) to
      the total. */
  lemma AddExistingSums(cart: seq<CartItem>, item: MenuItem, k: int)
    requires UniqueIds(cart)
    requires 0 <= k < |cart| && cart[k].item.id == item.id
    ensures CartItemCount(AddToCart(cart, item)) == CartItemCount(cart) + 1
    ensures CartTotal(AddToCart(cart, item)) == CartTotal(cart) + ItemPrice(cart[k].item)
  {
    var r := AddToCart(cart, item);
    assert Contains(cart, item.id);
    assert |r| == |cart|;
    forall i | 0 <= i < |cart| && i != k ensures r[i] == cart[i] {
      assert cart[i].item.id != cart[k].item.id;
    }
    assert r[k] == CartItem(cart[k].item, cart[k].quantity + 1);
    OneMoreSums(cart, r, k);
  }

  /** Adding an item not yet in the cart adds one to the item count and the
      item's discounted price to the total. */
  lemma AddNewSums(cart: seq<CartItem>, item: MenuItem)
    requires !Contains(cart, item.id)
    ensures CartItemCount(AddToCart(cart, item)) == CartItemCount(cart) + 1
    ensures CartTotal(AddToCart(cart, item)) == CartTotal(cart) + ItemPrice(item)
  {
    CartTotalAppend(cart, [CartItem(item, 1)]);
    CartItemCountAppend(cart, [CartItem(item, 1)]);
    assert CartTotal([CartItem(item, 1)]) == ItemPrice(item);
  }

  /** Adding an item that was not in the cart and then removing it restores the cart. */
  lemma RemoveUndoesAddOfNew(cart: seq<CartItem>, item: MenuItem)
    requires !Contains(cart, item.id)
    ensures RemoveFromCart(AddToCart(cart, item), item.id) == cart
  {
    var p := (line: CartItem) => line.item.id != item.id;
    Seqs.FilterAppend(cart, [CartItem(item, 1)], p);
    Seqs.FilterAllPass(cart, p);
    assert RemoveFromCart(AddToCart(cart, item), item.id) == Seqs.Filter(cart + [CartItem(item, 1)], p);
  }
}

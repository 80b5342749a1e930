/** The cart store (src/stores/cartStore.ts): an ordered list of cart lines
    with add / remove / update-quantity / clear actions and two folds over it. */
module Cart {
  import opened Catalog
  import opened Sequences

  /** One cart line: a product in a chosen size and colour, with a quantity. */
  datatype CartItem = CartItem(product: Product, quantity: int, selectedSize: string, selectedColor: string)

  /** `item` is the line `addToCart` merges into for the key (id, size, color). */
  predicate IsLine(item: CartItem, id: string, size: string, color: string) {
    item.product.id == id && item.selectedSize == size && item.selectedColor == color
  }

  predicate SameKey(a: CartItem, b: CartItem) {
    IsLine(a, b.product.id, b.selectedSize, b.selectedColor)
  }

  /** No two lines share a (product id, size, color) key. */
  predicate UniqueLines(cart: seq<CartItem>) {
    forall i, j :: 0 <= i < j < |cart| ==> !SameKey(cart[i], cart[j])
  }

  /** `cart.findIndex(...)` on the merge key: the first matching index, or -1. */
  function FindLine(cart: seq<CartItem>, id: string, size: string, color: string): (k: int)
    ensures -1 <= k < |cart|
    ensures k >= 0 ==> IsLine(cart[k], id, size, color)
    ensures forall j :: 0 <= j < |cart| && (k == -1 || j < k) ==> !IsLine(cart[j], id, size, color)
  {
    if cart == [] then -1
    else if IsLine(cart[0], id, size, color) then 0
    else
      var k := FindLine(cart[1..], id, size, color);
      if k == -1 then -1 else k + 1
  }

  /** The cart after `addToCart(product, size, color, quantity)`. */
  function Added(cart: seq<CartItem>, product: Product, size: string, color: string, quantity: int): (r: seq<CartItem>)
    ensures FindLine(r, product.id, size, color) >= 0
    ensures |r| == |cart| + (if FindLine(cart, product.id, size, color) == -1 then 1 else 0)
  {
    var k := FindLine(cart, product.id, size, color);
    if k > -1 then
      var r := cart[k := cart[k].(quantity := cart[k].quantity + quantity)];
      assert IsLine(r[k], product.id, size, color);
      r
    else
      var r := cart + [CartItem(product, quantity, size, color)];
      assert IsLine(r[|cart|], product.id, size, color);
      r
  }

  /** The cart after `removeFromCart(id)`: every line of that product goes,
      whatever its size or colour; the others stay, in order. */
  function Removed(cart: seq<CartItem>, id: string): (r: seq<CartItem>)
    ensures forall x :: x in r <==> x in cart && x.product.id != id
    ensures IsSubsequence(r, cart)
  {
    Filter(cart, (item: CartItem) => item.product.id != id)
  }

  /** The lines of one product, in cart order. */
  function LinesOf(cart: seq<CartItem>, id: string): (r: seq<CartItem>)
    ensures forall x :: x in r <==> x in cart && x.product.id == id
  {
    Filter(cart, (item: CartItem) => item.product.id == id)
  }

  /** `cart.map(...)` in `updateQuantity`: every line of the product gets `quantity`. */
  function SetQuantity(cart: seq<CartItem>, id: string, quantity: int): (r: seq<CartItem>)
    ensures |r| == |cart|
    ensures forall i :: 0 <= i < |cart| ==>
      r[i] == if cart[i].product.id == id then cart[i].(quantity := quantity) else cart[i]
  {
    if cart == [] then []
    else
      var head := if cart[0].product.id == id then cart[0].(quantity := quantity) else cart[0];
      [head] + SetQuantity(cart[1..], id, quantity)
  }

  /** The cart after `updateQuantity(id, quantity)`. */
  function WithQuantity(cart: seq<CartItem>, id: string, quantity: int): (r: seq<CartItem>)
    ensures quantity <= 0 ==> forall x :: x in r <==> x in cart && x.product.id != id
    ensures quantity > 0 ==> |r| == |cart|
    ensures quantity > 0 ==> forall i :: 0 <= i < |r| ==>
      r[i].product == cart[i].product
      && r[i].quantity == (if cart[i].product.id == id then quantity else cart[i].quantity)
  {
    if quantity <= 0 then Removed(cart, id) else SetQuantity(cart, id, quantity)
  }

  function LineTotal(item: CartItem): real {
    item.product.price * item.quantity as real
  }

  /** Every line has a price and a quantity of at least zero. */
  predicate NonNegativeLines(cart: seq<CartItem>) {
    forall i :: 0 <= i < |cart| ==> cart[i].product.price >= 0.0 && cart[i].quantity >= 0
  }

  /** `getCartTotal`: the sum of price × quantity over the lines. */
  function Total(cart: seq<CartItem>): (total: real)
  {
    if cart == [] then 0.0 else LineTotal(cart[0]) + Total(cart[1..])
  }

  /** `getCartItemsCount`: the sum of the quantities. */
  function ItemsCount(cart: seq<CartItem>): (count: int)
  {
    if cart == [] then 0 else cart[0].quantity + ItemsCount(cart[1..])
  }

  // ---------------------------------------------------------------------------
  // The folds

  lemma {:induction false} FoldsConcat(a: seq<CartItem>, b: seq<CartItem>)
    ensures Total(a + b) == Total(a) + Total(b)
    ensures ItemsCount(a + b) == ItemsCount(a) + ItemsCount(b)
  {
    if a == [] {
      assert a + b == b;
    } else {
      assert (a + b)[0] == a[0];
      assert (a + b)[1..] == a[1..] + b;
      FoldsConcat(a[1..], b);
    }
  }

  /** Lines with no negative price or quantity never sum to a negative total or count. */
  lemma {:induction false} FoldsNonNegative(cart: seq<CartItem>)
    requires NonNegativeLines(cart)
    ensures Total(cart) >= 0.0
    ensures ItemsCount(cart) >= 0
  {
    if cart != [] {
      assert NonNegativeLines(cart[1..]) by {
        forall i | 0 <= i < |cart[1..]|
          ensures cart[1..][i].product.price >= 0.0 && cart[1..][i].quantity >= 0
        {
          assert cart[1..][i] == cart[i + 1];
        }
      }
      FoldsNonNegative(cart[1..]);
      assert cart[0].product.price >= 0.0 && cart[0].quantity >= 0;
      assert LineTotal(cart[0]) >= 0.0;
    }
  }

  /** Replacing one line changes each fold by exactly that line's difference. */
  lemma {:induction false} FoldsUpdate(cart: seq<CartItem>, k: nat, item: CartItem)
    requires k < |cart|
    ensures Total(cart[k := item]) == Total(cart) - LineTotal(cart[k]) + LineTotal(item)
    ensures ItemsCount(cart[k := item]) == ItemsCount(cart) - cart[k].quantity + item.quantity
  {
    if k > 0 {
      assert cart[k := item][1..] == cart[1..][k - 1 := item];
      FoldsUpdate(cart[1..], k - 1, item);
    } else {
      assert cart[k := item][1..] == cart[1..];
    }
  }

  /** An empty cart totals 0 with 0 items: what `clearCart` leaves behind. */
  lemma EmptyCartFolds()
    ensures Total([]) == 0.0 && ItemsCount([]) == 0
  {
  }

  // ---------------------------------------------------------------------------
  // addToCart

  lemma Distribute(price: real, a: int, b: int)
    ensures price * (a + b) as real == price * a as real + price * b as real
  {
  }

  /** A key not yet in the cart is appended as one new line at the end;
      everything already there is unchanged. */
  lemma AddNewLine(cart: seq<CartItem>, product: Product, size: string, color: string, quantity: int)
    requires forall j :: 0 <= j < |cart| ==> !IsLine(cart[j], product.id, size, color)
    ensures Added(cart, product, size, color, quantity) == cart + [CartItem(product, quantity, size, color)]
  {
  }

  /** A key already in the cart keeps the length and raises only that line's quantity. */
  lemma AddExistingLine(cart: seq<CartItem>, k: nat, product: Product, size: string, color: string, quantity: int)
    requires UniqueLines(cart)
    requires k < |cart| && IsLine(cart[k], product.id, size, color)
    ensures var r := Added(cart, product, size, color, quantity);
      && |r| == |cart|
      && r[k] == cart[k].(quantity := cart[k].quantity + quantity)
      && forall j :: 0 <= j < |cart| && j != k ==> r[j] == cart[j]
  {
    var f := FindLine(cart, product.id, size, color);
    if f != k {
      assert f < k;
      assert SameKey(cart[f], cart[k]);
      assert false;
    }
  }

  /** `addToCart` never creates a second line for a key. */
  lemma AddKeepsUniqueLines(cart: seq<CartItem>, product: Product, size: string, color: string, quantity: int)
    requires UniqueLines(cart)
    ensures UniqueLines(Added(cart, product, size, color, quantity))
  {
    var r := Added(cart, product, size, color, quantity);
    var k := FindLine(cart, product.id, size, color);
    if k > -1 {
      forall i, j | 0 <= i < j < |r| ensures !SameKey(r[i], r[j]) {
        assert SameKey(r[i], r[j]) <==> SameKey(cart[i], cart[j]);
      }
    } else {
      forall i, j | 0 <= i < j < |r| ensures !SameKey(r[i], r[j]) {
        if j == |cart| {
          assert r[i] == cart[i];
          assert !IsLine(cart[i], product.id, size, color);
        } else {
          assert r[i] == cart[i] && r[j] == cart[j];
        }
      }
    }
  }

  /** The unit price of the line that `addToCart` puts the quantity on. */
  function AbsorbingPrice(cart: seq<CartItem>, product: Product, size: string, color: string): real {
    var k := FindLine(cart, product.id, size, color);
    if k > -1 then cart[k].product.price else product.price
  }

  /** `getCartItemsCount` grows by exactly `quantity`; `getCartTotal` grows by
      `quantity` times the price of the line that absorbed it — the new
      product's price when the line is new, the stored product's price when
      the key was already there. */
  lemma AddFolds(cart: seq<CartItem>, product: Product, size: string, color: string, quantity: int)
    ensures ItemsCount(Added(cart, product, size, color, quantity)) == ItemsCount(cart) + quantity
    ensures Total(Added(cart, product, size, color, quantity)) == Total(cart) + AbsorbingPrice(cart, product, size, color) * quantity as real
  {
    var k := FindLine(cart, product.id, size, color);
    if k > -1 {
      BumpFolds(cart, k, quantity);
    } else {
      AppendFolds(cart, CartItem(product, quantity, size, color));
    }
  }

  /** Appending one line adds its quantity to the count and its line total to the total. */
  lemma AppendFolds(cart: seq<CartItem>, item: CartItem)
    ensures ItemsCount(cart + [item]) == ItemsCount(cart) + item.quantity
    ensures Total(cart + [item]) == Total(cart) + item.product.price * item.quantity as real
  {
    FoldsConcat(cart, [item]);
    assert Total([item]) == LineTotal(item);
    assert ItemsCount([item]) == item.quantity;
  }

  /** Raising one line's quantity by `quantity` raises the count by `quantity`
      and the total by its unit price times `quantity`. */
  lemma BumpFolds(cart: seq<CartItem>, k: nat, quantity: int)
    requires k < |cart|
    ensures ItemsCount(cart[k := cart[k].(quantity := cart[k].quantity + quantity)]) == ItemsCount(cart) + quantity
    ensures Total(cart[k := cart[k].(quantity := cart[k].quantity + quantity)])
         == Total(cart) + cart[k].product.price * quantity as real
  {
    var old_ := cart[k];
    var new_ := old_.(quantity := old_.quantity + quantity);
    FoldsUpdate(cart, k, new_);
    LineTotalBump(old_, quantity);
  }

  /** One line's total grows by its unit price times the added quantity. */
  lemma LineTotalBump(item: CartItem, quantity: int)
    ensures LineTotal(item.(quantity := item.quantity + quantity)) == LineTotal(item) + item.product.price * quantity as real
  {
    Distribute(item.product.price, item.quantity, quantity);
  }

  /** When every line of the product carries the product's current price,
      the total grows by exactly price × quantity. */
  lemma AddTotal(cart: seq<CartItem>, product: Product, size: string, color: string, quantity: int)
    requires CurrentPrice(cart, product)
    ensures Total(Added(cart, product, size, color, quantity)) == Total(cart) + product.price * quantity as real
  {
    AddFolds(cart, product, size, color, quantity);
    AbsorbingPriceIsCurrent(cart, product, size, color);
  }

  /** Every line of the product carries the product's current price. */
  predicate CurrentPrice(cart: seq<CartItem>, product: Product) {
    forall j :: 0 <= j < |cart| && cart[j].product.id == product.id ==> cart[j].product.price == product.price
  }

  lemma AbsorbingPriceIsCurrent(cart: seq<CartItem>, product: Product, size: string, color: string)
    requires CurrentPrice(cart, product)
    ensures AbsorbingPrice(cart, product, size, color) == product.price
  {
    var k := FindLine(cart, product.id, size, color);
    if k > -1 {
      assert cart[k].product.id == product.id;
    }
  }

  // ---------------------------------------------------------------------------
  // removeFromCart and updateQuantity

  /** The product's lines and the remaining lines split both folds. */
  lemma {:induction false} RemovePartitionsFolds(cart: seq<CartItem>, id: string)
    ensures ItemsCount(cart) == ItemsCount(Removed(cart, id)) + ItemsCount(LinesOf(cart, id))
    ensures Total(cart) == Total(Removed(cart, id)) + Total(LinesOf(cart, id))
  {
    if cart != [] {
      RemovePartitionsFolds(cart[1..], id);
      var keep := (item: CartItem) => item.product.id != id;
      var drop := (item: CartItem) => item.product.id == id;
      assert Filter(cart, keep) == (if keep(cart[0]) then [cart[0]] else []) + Filter(cart[1..], keep);
      assert Filter(cart, drop) == (if drop(cart[0]) then [cart[0]] else []) + Filter(cart[1..], drop);
      FoldsConcat(if keep(cart[0]) then [cart[0]] else [], Filter(cart[1..], keep));
      FoldsConcat(if drop(cart[0]) then [cart[0]] else [], Filter(cart[1..], drop));
    }
  }

  /** With a positive quantity every variant of the product ends up with that
      quantity, so the item count is the rest of the cart plus quantity × the
      number of the product's lines. */
  lemma {:induction false} SetQuantityCount(cart: seq<CartItem>, id: string, quantity: int)
    ensures ItemsCount(SetQuantity(cart, id, quantity)) == ItemsCount(Removed(cart, id)) + quantity * |LinesOf(cart, id)|
  {
    if cart != [] {
      var rest := cart[1..];
      SetQuantityCount(rest, id, quantity);
      var r := SetQuantity(cart, id, quantity);
      assert r[1..] == SetQuantity(rest, id, quantity);
      assert ItemsCount(r) == r[0].quantity + ItemsCount(SetQuantity(rest, id, quantity));
      var n := |LinesOf(rest, id)|;
      if cart[0].product.id == id {
        assert Removed(cart, id) == Removed(rest, id);
        assert LinesOf(cart, id) == [cart[0]] + LinesOf(rest, id);
        MultiplySucc(quantity, n);
      } else {
        assert Removed(cart, id) == [cart[0]] + Removed(rest, id);
        assert ItemsCount([cart[0]] + Removed(rest, id)) == cart[0].quantity + ItemsCount(Removed(rest, id));
        assert LinesOf(cart, id) == LinesOf(rest, id);
      }
    }
  }

  lemma MultiplySucc(q: int, n: int)
    ensures q * (n + 1) == q * n + q
  {
  }

  lemma {:induction false} ConsUniqueLines(x: CartItem, rest: seq<CartItem>)
    requires UniqueLines(rest)
    requires forall y :: y in rest ==> !SameKey(x, y)
    ensures UniqueLines([x] + rest)
  {
    var s := [x] + rest;
    forall i, j | 0 <= i < j < |s| ensures !SameKey(s[i], s[j]) {
      if i == 0 {
        assert s[j] == rest[j - 1];
      } else {
        assert s[i] == rest[i - 1] && s[j] == rest[j - 1];
      }
    }
  }

  lemma {:induction false} FilterKeepsUniqueLines(cart: seq<CartItem>, f: CartItem -> bool)
    requires UniqueLines(cart)
    ensures UniqueLines(Filter(cart, f))
  {
    if cart != [] {
      assert UniqueLines(cart[1..]) by {
        forall i, j | 0 <= i < j < |cart[1..]| ensures !SameKey(cart[1..][i], cart[1..][j]) {
          assert cart[1..][i] == cart[i + 1] && cart[1..][j] == cart[j + 1];
        }
      }
      FilterKeepsUniqueLines(cart[1..], f);
      if f(cart[0]) {
        forall y | y in Filter(cart[1..], f) ensures !SameKey(cart[0], y) {
          var j :| 0 <= j < |cart[1..]| && cart[1..][j] == y;
          assert cart[j + 1] == y;
        }
        ConsUniqueLines(cart[0], Filter(cart[1..], f));
      }
    }
  }

  /** `removeFromCart` and `updateQuantity` keep the keys distinct. */
  lemma UpdateKeepsUniqueLines(cart: seq<CartItem>, id: string, quantity: int)
    requires UniqueLines(cart)
    ensures UniqueLines(Removed(cart, id))
    ensures UniqueLines(WithQuantity(cart, id, quantity))
  {
    FilterKeepsUniqueLines(cart, (item: CartItem) => item.product.id != id);
    if quantity > 0 {
      var r := SetQuantity(cart, id, quantity);
      forall i, j | 0 <= i < j < |r| ensures !SameKey(r[i], r[j]) {
        assert SameKey(r[i], r[j]) <==> SameKey(cart[i], cart[j]);
      }
    }
  }

  // ---------------------------------------------------------------------------
  // The store

  /** The zustand cart store; `cart` is the state field every action replaces. */
  class CartStore {
    var cart: seq<CartItem>

    constructor()
      ensures cart == []
    {
      cart := [];
    }

    /** `addToCart`: bump the existing line's quantity in place, or append a new line. */
    method AddToCart(product: Product, size: string, color: string, quantity: int := 1)
      modifies this
      ensures cart == Added(old(cart), product, size, color, quantity)
      ensures UniqueLines(old(cart)) ==> UniqueLines(cart)
      ensures ItemsCount(cart) == ItemsCount(old(cart)) + quantity
    {
      var existingItemIndex := FindLine(cart, product.id, size, color);
      if existingItemIndex > -1 {
        var updatedCart := cart;
        var line := updatedCart[existingItemIndex];
        updatedCart := updatedCart[existingItemIndex := line.(quantity := line.quantity + quantity)];
        cart := updatedCart;
      } else {
        cart := cart + [CartItem(product, quantity, size, color)];
      }
      AddFolds(old(cart), product, size, color, quantity);
      if UniqueLines(old(cart)) {
        AddKeepsUniqueLines(old(cart), product, size, color, quantity);
      }
    }

    /** `removeFromCart`: drop every line of the product. */
    method RemoveFromCart(productId: string)
      modifies this
      ensures cart == Removed(old(cart), productId)
    {
      cart := Filter(cart, (item: CartItem) => item.product.id != productId);
    }

    /** `updateQuantity`: a non-positive quantity removes the product,
        a positive one is set on every line of the product. */
    method UpdateQuantity(productId: string, quantity: int)
      modifies this
      ensures cart == WithQuantity(old(cart), productId, quantity)
      ensures UniqueLines(old(cart)) ==> UniqueLines(cart)
    {
      if UniqueLines(cart) {
        UpdateKeepsUniqueLines(cart, productId, quantity);
      }
      if quantity <= 0 {
        RemoveFromCart(productId);
        return;
      }
      cart := SetQuantity(cart, productId, quantity);
    }

    method ClearCart()
      modifies this
      ensures cart == []
      ensures GetCartTotal() == 0.0 && GetCartItemsCount() == 0
    {
      cart := [];
    }

    function GetCartTotal(): (total: real)
      reads this
      ensures total == Total(cart)
    {
      Total(cart)
    }

    function GetCartItemsCount(): (count: int)
      reads this
      ensures count == ItemsCount(cart)
    {
      ItemsCount(cart)
    }
  }
}

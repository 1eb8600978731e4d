/**
 * The point-of-sale cart of the sales page: adding a product, changing or removing a
 * line, the running total, and the reset when the cashier switches warehouse. Every
 * transition builds a new cart from the old one.
 */
module Cart {
  import opened Util
  import opened Schema

  datatype Product = Product(id: Uuid, name: string, sku: string, price: int)

  datatype CartItem = CartItem(productId: Uuid, name: string, sku: string, quantity: int, unitPrice: int, maxStock: int)

  /** The stock the page loaded for a product in the selected warehouse; a product it did not load has 0. */
  function StockFor(stockMap: map<Uuid, int>, productId: Uuid): (r: int)
    ensures productId !in stockMap ==> r == 0
    ensures productId in stockMap ==> r == stockMap[productId]
  {
    if productId in stockMap then stockMap[productId] else 0
  }

  /** The position of the first line for a product. */
  function Find(cart: seq<CartItem>, productId: Uuid): (r: Option<nat>)
    ensures r.None? <==> forall i :: 0 <= i < |cart| ==> cart[i].productId != productId
    ensures r.Some? ==> r.value < |cart| && cart[r.value].productId == productId
                        && forall i :: 0 <= i < r.value ==> cart[i].productId != productId
    decreases |cart|
  {
    if cart == [] then None
    else if cart[0].productId == productId then Some(0)
    else match Find(cart[1..], productId)
      case None => None
      case Some(i) => Some(i + 1)
  }

  /** Each product has at most one line, and every line holds between 1 and the stock it was capped at. */
  predicate CartValid(cart: seq<CartItem>, stockMap: map<Uuid, int>) {
    && DistinctIds(cart)
    && (forall i :: 0 <= i < |cart| ==>
          1 <= cart[i].quantity <= cart[i].maxStock && cart[i].maxStock == StockFor(stockMap, cart[i].productId))
  }

  predicate DistinctIds(cart: seq<CartItem>) {
    forall i, j :: 0 <= i < j < |cart| ==> cart[i].productId != cart[j].productId
  }

  /** Every line of the product gets one more unit; the others stay as they are. */
  function BumpLines(cart: seq<CartItem>, productId: Uuid): (r: seq<CartItem>)
    ensures |r| == |cart|
    ensures forall i :: 0 <= i < |cart| ==>
              r[i] == if cart[i].productId == productId then cart[i].(quantity := cart[i].quantity + 1) else cart[i]
  {
    seq(|cart|, i requires 0 <= i < |cart| =>
      if cart[i].productId == productId then cart[i].(quantity := cart[i].quantity + 1) else cart[i])
  }

  /**
   * Add one unit of a product. Nothing changes when the product has no stock, or when its
   * line already holds the whole stock; an existing line grows by one; otherwise a new
   * line with one unit, capped at the current stock, is appended.
   */
  function AddToCart(cart: seq<CartItem>, product: Product, stockMap: map<Uuid, int>): (r: seq<CartItem>)
    ensures StockFor(stockMap, product.id) <= 0 ==> r == cart
    ensures StockFor(stockMap, product.id) > 0 && Find(cart, product.id).Some? ==>
              var existing := cart[Find(cart, product.id).value];
              if existing.quantity >= StockFor(stockMap, product.id) then r == cart
              else
                && |r| == |cart|
                && forall i :: 0 <= i < |cart| ==>
                     r[i] == if cart[i].productId == product.id then cart[i].(quantity := cart[i].quantity + 1) else cart[i]
    ensures StockFor(stockMap, product.id) > 0 && Find(cart, product.id).None? ==>
              r == cart + [CartItem(product.id, product.name, product.sku, 1, product.price, StockFor(stockMap, product.id))]
  {
    var stock := StockFor(stockMap, product.id);
    if stock <= 0 then cart
    else match Find(cart, product.id)
      case Some(i) =>
        if cart[i].quantity >= stock then cart else BumpLines(cart, product.id)
      case None =>
        cart + [CartItem(product.id, product.name, product.sku, 1, product.price, stock)]
  }

  /** The cart without the product's lines. */
  function RemoveFromCart(cart: seq<CartItem>, productId: Uuid): (r: seq<CartItem>)
    ensures forall x :: x in r <==> x in cart && x.productId != productId
    ensures forall x :: multiset(r)[x] == if x.productId != productId then multiset(cart)[x] else 0
    ensures |r| <= |cart|
    decreases |cart|
  {
    if cart == [] then []
    else
      assert cart == [cart[0]] + cart[1..];
      (if cart[0].productId != productId then [cart[0]] else []) + RemoveFromCart(cart[1..], productId)
  }

  /**
   * Set a line's quantity: a quantity of 0 or less removes the product, any other is capped
   * at the line's stock.
   */
  function UpdateQty(cart: seq<CartItem>, productId: Uuid, qty: int): (r: seq<CartItem>)
    ensures qty <= 0 ==> r == RemoveFromCart(cart, productId)
    ensures qty > 0 ==>
              && |r| == |cart|
              && forall i :: 0 <= i < |cart| ==>
                   r[i] == if cart[i].productId == productId then cart[i].(quantity := Min(qty, cart[i].maxStock)) else cart[i]
  {
    if qty <= 0 then RemoveFromCart(cart, productId)
    else
      seq(|cart|, i requires 0 <= i < |cart| =>
        if cart[i].productId == productId then cart[i].(quantity := Min(qty, cart[i].maxStock)) else cart[i])
  }

  /** Σ quantity × unitPrice over the lines. */
  function CartTotal(cart: seq<CartItem>): int
    decreases |cart|
  {
    if cart == [] then 0 else cart[0].quantity * cart[0].unitPrice + CartTotal(cart[1..])
  }

  /** The sale form's state: the selected warehouse, its loaded stock, and the cart. */
  datatype Pos = Pos(warehouseId: Uuid, stockMap: map<Uuid, int>, cart: seq<CartItem>)

  /** Switching warehouse empties the cart; the new stock is loaded afterwards and an empty cart suits any stock. */
  function ChangeWarehouse(pos: Pos, warehouseId: Uuid, loadedStock: map<Uuid, int>): (r: Pos)
    ensures r.warehouseId == warehouseId && r.stockMap == loadedStock
    ensures CartTotal(r.cart) == 0
    ensures forall stockMap :: CartValid(r.cart, stockMap)
  {
    Pos(warehouseId, loadedStock, [])
  }

  // ---------------------------------------------------------------------------
  // The cart invariant is kept by every transition
  // ---------------------------------------------------------------------------

  lemma AddToCartKeepsValid(cart: seq<CartItem>, product: Product, stockMap: map<Uuid, int>)
    requires CartValid(cart, stockMap)
    ensures CartValid(AddToCart(cart, product, stockMap), stockMap)
  {
  }

  lemma DistinctCons(line: CartItem, rest: seq<CartItem>)
    requires DistinctIds(rest)
    requires forall x :: x in rest ==> x.productId != line.productId
    ensures DistinctIds([line] + rest)
  {
  }

  lemma {:induction false} RemoveFromCartDistinct(cart: seq<CartItem>, productId: Uuid)
    requires DistinctIds(cart)
    ensures DistinctIds(RemoveFromCart(cart, productId))
    decreases |cart|
  {
    if cart != [] {
      var rest := RemoveFromCart(cart[1..], productId);
      RemoveFromCartDistinct(cart[1..], productId);
      if cart[0].productId != productId {
        forall x | x in rest ensures x.productId != cart[0].productId {
          var j :| 0 <= j < |cart[1..]| && cart[1..][j] == x;
          assert cart[j + 1] == x;
        }
        DistinctCons(cart[0], rest);
      } else {
        assert [] + rest == rest;
      }
    }
  }

  lemma RemoveFromCartKeepsValid(cart: seq<CartItem>, productId: Uuid, stockMap: map<Uuid, int>)
    requires CartValid(cart, stockMap)
    ensures CartValid(RemoveFromCart(cart, productId), stockMap)
  {
    RemoveFromCartDistinct(cart, productId);
    var r := RemoveFromCart(cart, productId);
    forall i | 0 <= i < |r|
      ensures 1 <= r[i].quantity <= r[i].maxStock && r[i].maxStock == StockFor(stockMap, r[i].productId)
    {
      assert r[i] in cart;
    }
  }

  lemma UpdateQtyKeepsValid(cart: seq<CartItem>, productId: Uuid, qty: int, stockMap: map<Uuid, int>)
    requires CartValid(cart, stockMap)
    ensures CartValid(UpdateQty(cart, productId, qty), stockMap)
  {
    if qty <= 0 {
      RemoveFromCartKeepsValid(cart, productId, stockMap);
    }
  }

  // ---------------------------------------------------------------------------
  // How the transitions move the total
  // ---------------------------------------------------------------------------

  /** The part of the total that comes from one product's lines. */
  function ProductTotal(cart: seq<CartItem>, productId: Uuid): int
    decreases |cart|
  {
    if cart == [] then 0
    else (if cart[0].productId == productId then cart[0].quantity * cart[0].unitPrice else 0) + ProductTotal(cart[1..], productId)
  }

  /** Removing a product takes exactly its lines' share off the total. */
  lemma {:induction false} RemoveFromCartTotal(cart: seq<CartItem>, productId: Uuid)
    ensures CartTotal(RemoveFromCart(cart, productId)) == CartTotal(cart) - ProductTotal(cart, productId)
    decreases |cart|
  {
    if cart != [] {
      RemoveFromCartTotal(cart[1..], productId);
      var rest := RemoveFromCart(cart[1..], productId);
      if cart[0].productId != productId {
        assert ([cart[0]] + rest)[1..] == rest;
      } else {
        assert [] + rest == rest;
      }
    }
  }

  lemma {:induction false} CartTotalAppend(cart: seq<CartItem>, line: CartItem)
    ensures CartTotal(cart + [line]) == CartTotal(cart) + line.quantity * line.unitPrice
    decreases |cart|
  {
    if cart == [] {
      assert ([] + [line])[1..] == [];
    } else {
      assert (cart + [line])[1..] == cart[1..] + [line];
      CartTotalAppend(cart[1..], line);
    }
  }

  /** One line's share of the total. */
  function LineTotal(line: CartItem): int {
    line.quantity * line.unitPrice
  }

  lemma {:induction false} CartTotalIsSum(cart: seq<CartItem>)
    ensures CartTotal(cart) == SumOf(cart, LineTotal)
    decreases |cart|
  {
    if cart != [] {
      CartTotalIsSum(cart[1..]);
    }
  }

  /** The total does not depend on the order of the lines: the same lines in any order give the same total. */
  lemma CartTotalOrderFree(a: seq<CartItem>, b: seq<CartItem>)
    requires multiset(a) == multiset(b)
    ensures CartTotal(a) == CartTotal(b)
  {
    CartTotalIsSum(a);
    CartTotalIsSum(b);
    SumOfPermutation(a, b, LineTotal);
  }

  lemma {:induction false} BumpLinesTotal(cart: seq<CartItem>, productId: Uuid, k: nat)
    requires DistinctIds(cart)
    requires k < |cart| && cart[k].productId == productId
    ensures CartTotal(BumpLines(cart, productId)) == CartTotal(cart) + cart[k].unitPrice
    decreases k
  {
    var r := BumpLines(cart, productId);
    assert r[1..] == BumpLines(cart[1..], productId);
    if k == 0 {
      assert r[1..] == cart[1..] by {
        forall i | 0 <= i < |cart| - 1 ensures r[1..][i] == cart[1..][i] {
          assert cart[i + 1].productId != cart[0].productId;
        }
      }
    } else {
      assert cart[0].productId != productId;
      BumpLinesTotal(cart[1..], productId, k - 1);
    }
  }

  /**
   * Adding a product raises the total by one unit's price when it is accepted, and leaves
   * the cart as it was when it is not.
   */
  lemma AddToCartTotal(cart: seq<CartItem>, product: Product, stockMap: map<Uuid, int>)
    requires DistinctIds(cart)
    ensures var r := AddToCart(cart, product, stockMap);
            r == cart
            || (|r| == |cart| + 1 && CartTotal(r) == CartTotal(cart) + product.price)
            || (|r| == |cart| && exists i :: 0 <= i < |cart| && cart[i].productId == product.id
                                            && CartTotal(r) == CartTotal(cart) + cart[i].unitPrice)
  {
    var stock := StockFor(stockMap, product.id);
    if stock > 0 {
      match Find(cart, product.id)
      case None =>
        CartTotalAppend(cart, CartItem(product.id, product.name, product.sku, 1, product.price, stock));
      case Some(k) =>
        if cart[k].quantity < stock {
          BumpLinesTotal(cart, product.id, k);
        }
    }
  }
}

/**
 * The cart tables of the database seen as values: the lookups the cart DAO
 * issues, the join that hydrates a cart, the value of a cart's lines, the
 * stock checks of checkout, and the invariants the cart engine keeps.
 */
module CartStore {
  import opened Wrappers
  import opened Sequences
  import opened Schema
  import opened ProductErrors

  // ---------------------------------------------------------------- lookups

  /** The rows `SELECT * FROM carts WHERE customer = ? AND paid = 0` matches. */
  predicate IsCurrentOf(c: CartRow, customer: string)
  {
    c.customer == customer && !c.paid
  }

  /** The customer's current (unpaid) cart: the first matching row, as `db.get` returns it. */
  function FindCurrent(carts: seq<CartRow>, customer: string): (r: Option<nat>)
    ensures r.Some? ==> r.value < |carts| && IsCurrentOf(carts[r.value], customer)
    ensures r.Some? ==> forall j :: 0 <= j < r.value ==> !IsCurrentOf(carts[j], customer)
    ensures r.None? ==> forall j :: 0 <= j < |carts| ==> !IsCurrentOf(carts[j], customer)
  {
    if carts == [] then None
    else if IsCurrentOf(carts[0], customer) then Some(0)
    else match FindCurrent(carts[1..], customer)
      case None => None
      case Some(k) => Some(k + 1)
  }

  /** The rows `SELECT * FROM cartItems WHERE cart_id = ? AND product_model = ?` matches. */
  predicate IsItemOf(it: CartItem, cartId: nat, model: string)
  {
    it.cartId == cartId && it.model == model
  }

  /** The cart's row for a product, if it has one. */
  function FindItem(items: seq<CartItem>, cartId: nat, model: string): (r: Option<nat>)
    ensures r.Some? ==> r.value < |items| && IsItemOf(items[r.value], cartId, model)
    ensures r.None? ==> forall k :: 0 <= k < |items| ==> !IsItemOf(items[k], cartId, model)
  {
    if items == [] then None
    else if IsItemOf(items[0], cartId, model) then Some(0)
    else match FindItem(items[1..], cartId, model)
      case None => None
      case Some(k) => Some(k + 1)
  }

  // ------------------------------------------------------- row deletions

  /** `DELETE FROM cartItems WHERE quantity_in_cart = 0` (over every cart). */
  function DropZero(items: seq<CartItem>): (r: seq<CartItem>)
    ensures forall k :: 0 <= k < |r| ==> r[k] in items && r[k].quantity != 0
    ensures forall k :: 0 <= k < |items| && items[k].quantity != 0 ==> items[k] in r
  {
    Filter(items, (it: CartItem) => it.quantity != 0)
  }

  /** `DELETE FROM cartItems WHERE cart_id = ?`. */
  function WithoutCart(items: seq<CartItem>, cartId: nat): (r: seq<CartItem>)
    ensures forall k :: 0 <= k < |r| ==> r[k] in items && r[k].cartId != cartId
    ensures forall k :: 0 <= k < |items| && items[k].cartId != cartId ==> items[k] in r
  {
    Filter(items, (it: CartItem) => it.cartId != cartId)
  }

  /** `SELECT * FROM carts WHERE customer = ? AND paid = 1`. */
  function PaidCartsOf(carts: seq<CartRow>, customer: string): (r: seq<CartRow>)
    ensures forall k :: 0 <= k < |r| ==> r[k] in carts && r[k].paid && r[k].customer == customer
    ensures forall k :: 0 <= k < |carts| && carts[k].paid && carts[k].customer == customer ==> carts[k] in r
  {
    Filter(carts, (c: CartRow) => c.paid && c.customer == customer)
  }

  // ---------------------------------------------------------- cart value

  /** What one item row contributes to the value of cart `cartId` at catalog prices. */
  function LineValue(it: CartItem, cartId: nat, products: map<string, Product>): int
  {
    if it.cartId == cartId && it.model in products then it.quantity * products[it.model].sellingPrice else 0
  }

  /** The sum of quantity times selling price over the items of cart `cartId`. */
  function CartValue(items: seq<CartItem>, cartId: nat, products: map<string, Product>): int
  {
    if items == [] then 0
    else CartValue(items[..|items| - 1], cartId, products) + LineValue(items[|items| - 1], cartId, products)
  }

  lemma CartValueAppend(items: seq<CartItem>, x: CartItem, cartId: nat, products: map<string, Product>)
    ensures CartValue(items + [x], cartId, products) == CartValue(items, cartId, products) + LineValue(x, cartId, products)
  {
    assert (items + [x])[..|items|] == items;
  }

  /** Rewriting one row changes the cart's value by the difference of that row's contributions. */
  lemma {:induction false} CartValueUpdate(items: seq<CartItem>, k: nat, x: CartItem, cartId: nat, products: map<string, Product>)
    requires k < |items|
    ensures CartValue(items[k := x], cartId, products)
         == CartValue(items, cartId, products) - LineValue(items[k], cartId, products) + LineValue(x, cartId, products)
  {
    var n := |items| - 1;
    var pre := items[..n];
    assert items == pre + [items[n]];
    if k == n {
      assert items[k := x] == pre + [x];
      CartValueAppend(pre, x, cartId, products);
      CartValueAppend(pre, items[n], cartId, products);
    } else {
      assert items[k := x] == pre[k := x] + [items[n]];
      CartValueUpdate(pre, k, x, cartId, products);
      CartValueAppend(pre[k := x], items[n], cartId, products);
      CartValueAppend(pre, items[n], cartId, products);
    }
  }

  /** Rows of quantity 0 contribute nothing, so deleting them keeps every cart's value. */
  lemma {:induction false} CartValueDropZero(items: seq<CartItem>, cartId: nat, products: map<string, Product>)
    ensures CartValue(DropZero(items), cartId, products) == CartValue(items, cartId, products)
  {
    if items != [] {
      var n := |items| - 1;
      var pre := items[..n];
      CartValueDropZero(pre, cartId, products);
      assert CartValue(items, cartId, products) == CartValue(pre, cartId, products) + LineValue(items[n], cartId, products);
      if items[n].quantity != 0 {
        assert DropZero(items) == DropZero(pre) + [items[n]] by { assert items[..n] == pre; }
        CartValueAppend(DropZero(pre), items[n], cartId, products);
      } else {
        assert DropZero(items) == DropZero(pre) by { assert items[..n] == pre; }
      }
    }
  }

  /** Deleting the rows of one cart empties that cart and keeps every other. */
  lemma {:induction false} CartValueWithoutCart(items: seq<CartItem>, cleared: nat, cartId: nat, products: map<string, Product>)
    ensures CartValue(WithoutCart(items, cleared), cartId, products)
         == if cartId == cleared then 0 else CartValue(items, cartId, products)
  {
    if items != [] {
      var n := |items| - 1;
      var pre := items[..n];
      CartValueWithoutCart(pre, cleared, cartId, products);
      assert CartValue(items, cartId, products) == CartValue(pre, cartId, products) + LineValue(items[n], cartId, products);
      if items[n].cartId != cleared {
        assert WithoutCart(items, cleared) == WithoutCart(pre, cleared) + [items[n]] by { assert items[..n] == pre; }
        CartValueAppend(WithoutCart(pre, cleared), items[n], cartId, products);
      } else {
        assert WithoutCart(items, cleared) == WithoutCart(pre, cleared) by { assert items[..n] == pre; }
      }
    }
  }

  /** A cart no row refers to is worth 0. */
  lemma {:induction false} CartValueNoRows(items: seq<CartItem>, cartId: nat, products: map<string, Product>)
    requires forall k :: 0 <= k < |items| ==> items[k].cartId != cartId
    ensures CartValue(items, cartId, products) == 0
  {
    if items != [] {
      CartValueNoRows(items[..|items| - 1], cartId, products);
    }
  }

  /** A cart's value depends only on the selling prices of the products in it. */
  lemma {:induction false} CartValueSamePrices(items: seq<CartItem>, cartId: nat, products: map<string, Product>, products': map<string, Product>)
    requires forall k :: 0 <= k < |items| ==>
      items[k].model in products && items[k].model in products'
      && products'[items[k].model].sellingPrice == products[items[k].model].sellingPrice
    ensures CartValue(items, cartId, products') == CartValue(items, cartId, products)
  {
    if items != [] {
      CartValueSamePrices(items[..|items| - 1], cartId, products, products');
    }
  }

  // --------------------------------------------------------- hydration

  /** The join `cartItems ci, products p WHERE ci.product_model = p.model AND ci.cart_id = ?`. */
  function Lines(items: seq<CartItem>, cartId: nat, products: map<string, Product>): (r: seq<ProductInCart>)
    ensures |r| <= |items|
    ensures forall j :: 0 <= j < |r| ==>
      r[j].model in products
      && r[j].price == products[r[j].model].sellingPrice
      && r[j].category == products[r[j].model].category
    ensures (forall k :: 0 <= k < |items| ==> items[k].quantity >= 1) ==>
      forall j :: 0 <= j < |r| ==> r[j].quantity >= 1
  {
    if items == [] then []
    else
      var it := items[|items| - 1];
      Lines(items[..|items| - 1], cartId, products)
      + if it.cartId == cartId && it.model in products
        then [ProductInCart(it.model, it.quantity, products[it.model].category, products[it.model].sellingPrice)]
        else []
  }

  /** Every row of the cart whose product is in the catalog comes back as a line with that model and quantity. */
  lemma {:induction false} LinesCover(items: seq<CartItem>, cartId: nat, products: map<string, Product>, k: nat)
    requires k < |items| && items[k].cartId == cartId && items[k].model in products
    ensures exists j :: (0 <= j < |Lines(items, cartId, products)|
      && Lines(items, cartId, products)[j].model == items[k].model
      && Lines(items, cartId, products)[j].quantity == items[k].quantity)
  {
    var n := |items| - 1;
    var pre := Lines(items[..n], cartId, products);
    var r := Lines(items, cartId, products);
    var it := items[n];
    assert r == pre + if it.cartId == cartId && it.model in products
      then [ProductInCart(it.model, it.quantity, products[it.model].category, products[it.model].sellingPrice)]
      else [];
    if k == n {
      assert r[|pre|].model == items[k].model;
    } else {
      assert items[..n][k] == items[k];
      LinesCover(items[..n], cartId, products, k);
      var j :| 0 <= j < |pre| && pre[j].model == items[k].model && pre[j].quantity == items[k].quantity;
      assert r[j] == pre[j];
    }
  }

  /** The rows the join pairs with a product: those of cart `cartId` whose model is in the catalog, in table order. */
  function JoinedRows(items: seq<CartItem>, cartId: nat, products: map<string, Product>): (r: seq<CartItem>)
    ensures forall k :: 0 <= k < |r| ==> r[k] in items && r[k].cartId == cartId && r[k].model in products
    ensures forall k :: 0 <= k < |items| && items[k].cartId == cartId && items[k].model in products ==> items[k] in r
  {
    Filter(items, (it: CartItem) => it.cartId == cartId && it.model in products)
  }

  /**
   * The join answers one line per joined row, in the same order, each with
   * that row's model and quantity: no line comes from another cart.
   */
  lemma {:induction false} LinesAreJoinedRows(items: seq<CartItem>, cartId: nat, products: map<string, Product>)
    ensures |Lines(items, cartId, products)| == |JoinedRows(items, cartId, products)|
    ensures forall j :: 0 <= j < |Lines(items, cartId, products)| ==>
      Lines(items, cartId, products)[j].model == JoinedRows(items, cartId, products)[j].model
      && Lines(items, cartId, products)[j].quantity == JoinedRows(items, cartId, products)[j].quantity
  {
    if items != [] {
      var n := |items| - 1;
      var pre := items[..n];
      var it := items[n];
      LinesAreJoinedRows(pre, cartId, products);
      var lines, rows := Lines(items, cartId, products), JoinedRows(items, cartId, products);
      var lines0, rows0 := Lines(pre, cartId, products), JoinedRows(pre, cartId, products);
      if it.cartId == cartId && it.model in products {
        assert lines == lines0 + [ProductInCart(it.model, it.quantity, products[it.model].category, products[it.model].sellingPrice)];
        assert rows == rows0 + [it];
      } else {
        assert lines == lines0;
        assert rows == rows0;
      }
    }
  }

  /** The sum of quantity times price over the lines of a returned cart. */
  function LinesValue(lines: seq<ProductInCart>): int
  {
    if lines == [] then 0
    else LinesValue(lines[..|lines| - 1]) + lines[|lines| - 1].quantity * lines[|lines| - 1].price
  }

  /** The value of the lines is additive over concatenation. */
  lemma {:induction false} LinesValueAppend(lines: seq<ProductInCart>, extra: seq<ProductInCart>)
    ensures LinesValue(lines + extra) == LinesValue(lines) + LinesValue(extra)
  {
    if extra == [] {
      assert lines + extra == lines;
    } else {
      var n := |extra| - 1;
      assert (lines + extra)[..|lines + extra| - 1] == lines + extra[..n];
      LinesValueAppend(lines, extra[..n]);
    }
  }

  /** The lines a cart is returned with are worth exactly the cart's value. */
  lemma {:induction false} LinesValueIsCartValue(items: seq<CartItem>, cartId: nat, products: map<string, Product>)
    ensures LinesValue(Lines(items, cartId, products)) == CartValue(items, cartId, products)
  {
    if items != [] {
      var it := items[|items| - 1];
      LinesValueIsCartValue(items[..|items| - 1], cartId, products);
      LinesValueAppend(Lines(items[..|items| - 1], cartId, products),
        if it.cartId == cartId && it.model in products
        then [ProductInCart(it.model, it.quantity, products[it.model].category, products[it.model].sellingPrice)]
        else []);
    }
  }

  /** A cart row hydrated with its lines. */
  function CartView(row: CartRow, items: seq<CartItem>, products: map<string, Product>): (r: Cart)
    ensures r.customer == row.customer && r.paid == row.paid && r.paymentDate == row.paymentDate && r.total == row.total
    ensures row.total == CartValue(items, row.id, products) ==> r.total == LinesValue(r.products)
  {
    LinesValueIsCartValue(items, row.id, products);
    Cart(row.customer, row.paid, row.paymentDate, row.total, Lines(items, row.id, products))
  }

  // ------------------------------------------------------------ checkout

  /** The stock check of cartDAO.ts:320-321 as written: both conditions give the same error. */
  function StockErrorAsWritten(stock: int, inCart: int): (r: Option<ProductError>)
    ensures r.None? <==> stock != 0 && inCart <= stock
    ensures r != Some(LowProductStock)
  {
    if stock < inCart || stock == 0 then Some(EmptyProductStock) else None
  }

  /** The stock check as intended: an empty stock and a short stock are told apart. */
  function StockError(stock: int, inCart: int): (r: Option<ProductError>)
    ensures r == Some(EmptyProductStock) <==> stock == 0
    ensures r == Some(LowProductStock) <==> stock != 0 && stock < inCart
    ensures r.None? <==> stock != 0 && inCart <= stock
    ensures r.None? <==> StockErrorAsWritten(stock, inCart).None?
  {
    if stock == 0 then Some(EmptyProductStock)
    else if stock < inCart then Some(LowProductStock)
    else None
  }

  /** A stock of 3 against 5 in the cart is reported as an empty stock by the code as written. */
  lemma LowStockReportedAsEmpty()
    ensures StockErrorAsWritten(3, 5) == Some(EmptyProductStock)
    ensures StockError(3, 5) == Some(LowProductStock)
  {
  }

  /** The stock check of one row of the checkout join (rows of other carts or unknown products are not in it). */
  function RowStockError(it: CartItem, cartId: nat, products: map<string, Product>): Option<ProductError>
  {
    if it.cartId == cartId && it.model in products then StockError(products[it.model].quantity, it.quantity) else None
  }

  /** The error of the first row of the checkout join that fails its stock check. */
  function FirstStockError(items: seq<CartItem>, cartId: nat, products: map<string, Product>): (r: Option<ProductError>)
    ensures r.None? <==> forall k :: 0 <= k < |items| ==> RowStockError(items[k], cartId, products).None?
    ensures r.Some? ==> exists k :: 0 <= k < |items| && RowStockError(items[k], cartId, products) == r
  {
    if items == [] then None
    else
      var pre := items[..|items| - 1];
      var e := FirstStockError(pre, cartId, products);
      assert forall k :: 0 <= k < |pre| ==> pre[k] == items[k];
      if e.Some? then e else RowStockError(items[|items| - 1], cartId, products)
  }

  /** Once a prefix of the rows has failed, the rows after it do not change the reported error. */
  lemma {:induction false} FirstStockErrorPrefix(items: seq<CartItem>, n: nat, cartId: nat, products: map<string, Product>)
    requires n <= |items|
    requires FirstStockError(items[..n], cartId, products).Some?
    ensures FirstStockError(items, cartId, products) == FirstStockError(items[..n], cartId, products)
  {
    if n < |items| {
      var pre := items[..|items| - 1];
      assert pre[..n] == items[..n];
      FirstStockErrorPrefix(pre, n, cartId, products);
    } else {
      assert items[..n] == items;
    }
  }

  /** The total number of units of `model` in cart `cartId`. */
  function QtyInCart(items: seq<CartItem>, cartId: nat, model: string): int
  {
    if items == [] then 0
    else
      var it := items[|items| - 1];
      QtyInCart(items[..|items| - 1], cartId, model) + if IsItemOf(it, cartId, model) then it.quantity else 0
  }

  /** With one row per (cart, product), the units in the cart are that row's quantity. */
  lemma {:induction false} QtyInCartIsRowQuantity(items: seq<CartItem>, cartId: nat, model: string)
    requires ItemsKeyed(items)
    ensures FindItem(items, cartId, model).None? ==> QtyInCart(items, cartId, model) == 0
    ensures FindItem(items, cartId, model).Some? ==>
      QtyInCart(items, cartId, model) == items[FindItem(items, cartId, model).value].quantity
  {
    if items != [] {
      var n := |items| - 1;
      var pre := items[..n];
      assert forall k :: 0 <= k < n ==> pre[k] == items[k];
      assert ItemsKeyed(pre);
      QtyInCartIsRowQuantity(pre, cartId, model);
      if IsItemOf(items[n], cartId, model) {
        forall k | 0 <= k < n ensures !IsItemOf(pre[k], cartId, model) {
          assert ItemKey(items[k]) != ItemKey(items[n]);
        }
        assert FindItem(pre, cartId, model).None?;
      }
      var f := FindItem(items, cartId, model);
      if f.Some? && f.value < n {
        assert IsItemOf(pre[f.value], cartId, model);
      }
    }
  }

  /** The catalog after checkout of cart `cartId`: each product's stock less the units in the cart. */
  function Shipped(products: map<string, Product>, items: seq<CartItem>, cartId: nat): (r: map<string, Product>)
    ensures r.Keys == products.Keys
    ensures forall m :: m in products ==>
      r[m] == products[m].(quantity := products[m].quantity - QtyInCart(items, cartId, m))
  {
    map m | m in products :: products[m].(quantity := products[m].quantity - QtyInCart(items, cartId, m))
  }

  /** Shipping one more row decrements exactly that row's product by that row's quantity. */
  lemma ShippedStep(products: map<string, Product>, items: seq<CartItem>, x: CartItem, cartId: nat)
    ensures Shipped(products, items + [x], cartId)
         == if x.cartId == cartId && x.model in products
            then
              var s := Shipped(products, items, cartId);
              s[x.model := s[x.model].(quantity := s[x.model].quantity - x.quantity)]
            else Shipped(products, items, cartId)
  {
    assert (items + [x])[..|items|] == items;
  }

  /** `UPDATE products SET quantity = quantity - ? WHERE model = ?` for one row of cart `cartId`. */
  function ShipRow(stock: map<string, Product>, x: CartItem, cartId: nat): map<string, Product>
  {
    if x.cartId == cartId && x.model in stock
    then stock[x.model := stock[x.model].(quantity := stock[x.model].quantity - x.quantity)]
    else stock
  }

  /** The catalog after shipping the first `k + 1` rows is the one after the first `k`, with row `k` shipped. */
  lemma ShippedNext(products: map<string, Product>, items: seq<CartItem>, k: nat, cartId: nat)
    requires k < |items|
    ensures Shipped(products, items[..k + 1], cartId) == ShipRow(Shipped(products, items[..k], cartId), items[k], cartId)
  {
    assert items[..k + 1] == items[..k] + [items[k]];
    ShippedStep(products, items[..k], items[k], cartId);
  }

  /** A checkout that passed its stock checks never drives the stock of a product in the cart below 0. */
  lemma ShippedStockNonNegative(products: map<string, Product>, items: seq<CartItem>, cartId: nat, k: nat)
    requires ItemsKeyed(items)
    requires FirstStockError(items, cartId, products).None?
    requires k < |items| && items[k].cartId == cartId && items[k].model in products
    ensures Shipped(products, items, cartId)[items[k].model].quantity >= 0
  {
    var m := items[k].model;
    QtyInCartIsRowQuantity(items, cartId, m);
    var f := FindItem(items, cartId, m).value;
    assert ItemKey(items[f]) == ItemKey(items[k]);
    assert f == k;
    assert RowStockError(items[k], cartId, products).None?;
  }

  // ------------------------------------------------------- row upserts

  /**
   * One more unit of `model` in cart `cartId`: its row's quantity grows by 1,
   * or a row of quantity 1 is inserted when the cart has none.
   */
  function AddUnit(items: seq<CartItem>, cartId: nat, model: string): seq<CartItem>
  {
    match FindItem(items, cartId, model)
    case None => items + [CartItem(cartId, model, 1)]
    case Some(k) => items[k := items[k].(quantity := items[k].quantity + 1)]
  }

  /** One unit less in row `k`, and then the rows left at quantity 0 are deleted. */
  function RemoveUnit(items: seq<CartItem>, k: nat): seq<CartItem>
    requires k < |items|
  {
    DropZero(items[k := items[k].(quantity := items[k].quantity - 1)])
  }

  /** What one row adds to the units of `model` in cart `cartId`. */
  function RowQty(it: CartItem, cartId: nat, model: string): int
  {
    if IsItemOf(it, cartId, model) then it.quantity else 0
  }

  lemma QtyInCartAppend(items: seq<CartItem>, x: CartItem, cartId: nat, model: string)
    ensures QtyInCart(items + [x], cartId, model) == QtyInCart(items, cartId, model) + RowQty(x, cartId, model)
  {
    assert (items + [x])[..|items|] == items;
  }

  /** Rewriting one row changes the units in a cart by the difference of that row's contributions. */
  lemma {:induction false} QtyInCartUpdate(items: seq<CartItem>, k: nat, x: CartItem, cartId: nat, model: string)
    requires k < |items|
    ensures QtyInCart(items[k := x], cartId, model)
         == QtyInCart(items, cartId, model) - RowQty(items[k], cartId, model) + RowQty(x, cartId, model)
  {
    var n := |items| - 1;
    var pre := items[..n];
    assert items == pre + [items[n]];
    QtyInCartAppend(pre, items[n], cartId, model);
    if k == n {
      assert items[k := x] == pre + [x];
      QtyInCartAppend(pre, x, cartId, model);
    } else {
      assert items[k := x] == pre[k := x] + [items[n]];
      QtyInCartUpdate(pre, k, x, cartId, model);
      QtyInCartAppend(pre[k := x], items[n], cartId, model);
    }
  }

  /** Rows of quantity 0 hold no units, so deleting them keeps every count. */
  lemma {:induction false} QtyInCartDropZero(items: seq<CartItem>, cartId: nat, model: string)
    ensures QtyInCart(DropZero(items), cartId, model) == QtyInCart(items, cartId, model)
  {
    if items != [] {
      var n := |items| - 1;
      var pre := items[..n];
      QtyInCartDropZero(pre, cartId, model);
      QtyInCartAppend(pre, items[n], cartId, model);
      assert items == pre + [items[n]];
      if items[n].quantity != 0 {
        assert DropZero(items) == DropZero(pre) + [items[n]];
        QtyInCartAppend(DropZero(pre), items[n], cartId, model);
      } else {
        assert DropZero(items) == DropZero(pre);
      }
    }
  }

  /** The upsert adds exactly one unit of `model` to cart `cartId` and leaves every other count alone. */
  lemma AddUnitCounts(items: seq<CartItem>, cartId: nat, model: string, c: nat, m: string)
    ensures QtyInCart(AddUnit(items, cartId, model), c, m)
         == QtyInCart(items, c, m) + if c == cartId && m == model then 1 else 0
  {
    match FindItem(items, cartId, model)
    case None =>
      QtyInCartAppend(items, CartItem(cartId, model, 1), c, m);
    case Some(k) =>
      QtyInCartUpdate(items, k, items[k].(quantity := items[k].quantity + 1), c, m);
  }

  /** Removing a unit from row `k` takes exactly one unit off that row's (cart, product) and leaves every other count alone. */
  lemma RemoveUnitCounts(items: seq<CartItem>, k: nat, c: nat, m: string)
    requires k < |items|
    ensures QtyInCart(RemoveUnit(items, k), c, m)
         == QtyInCart(items, c, m) - if IsItemOf(items[k], c, m) then 1 else 0
  {
    var bumped := items[k := items[k].(quantity := items[k].quantity - 1)];
    QtyInCartUpdate(items, k, bumped[k], c, m);
    QtyInCartDropZero(bumped, c, m);
  }

  /** Deleting item rows keeps the key of `cartItems`. */
  lemma KeyedFilter(items: seq<CartItem>, keep: CartItem -> bool)
    requires ItemsKeyed(items)
    ensures ItemsKeyed(Filter(items, keep))
  {
    assert UniqueBy(items, ItemKey);
    FilterUniqueBy(items, keep, ItemKey);
  }

  /** Adding a unit to an issued cart keeps one row per (cart, product) and refers only to issued carts. */
  lemma AddUnitKeepsSchema(items: seq<CartItem>, cartId: nat, model: string, nextCartId: nat)
    requires ItemsKeyed(items)
    requires forall k :: 0 <= k < |items| ==> items[k].cartId < nextCartId
    requires cartId < nextCartId
    ensures ItemsKeyed(AddUnit(items, cartId, model))
    ensures forall k :: 0 <= k < |AddUnit(items, cartId, model)| ==> AddUnit(items, cartId, model)[k].cartId < nextCartId
  {
    var items' := AddUnit(items, cartId, model);
    match FindItem(items, cartId, model)
    case None =>
      forall i, j | 0 <= i < j < |items'| ensures ItemKey(items'[i]) != ItemKey(items'[j]) {
        if j == |items| { assert !IsItemOf(items[i], cartId, model); }
      }
    case Some(k) =>
      assert forall j :: 0 <= j < |items'| ==> ItemKey(items'[j]) == ItemKey(items[j]);
  }

  /** Removing a unit keeps one row per (cart, product) and refers only to issued carts. */
  lemma RemoveUnitKeepsSchema(items: seq<CartItem>, k: nat, nextCartId: nat)
    requires k < |items|
    requires ItemsKeyed(items)
    requires forall j :: 0 <= j < |items| ==> items[j].cartId < nextCartId
    ensures ItemsKeyed(RemoveUnit(items, k))
    ensures forall j :: 0 <= j < |RemoveUnit(items, k)| ==> RemoveUnit(items, k)[j].cartId < nextCartId
  {
    var bumped := items[k := items[k].(quantity := items[k].quantity - 1)];
    assert forall j :: 0 <= j < |bumped| ==> ItemKey(bumped[j]) == ItemKey(items[j]);
    KeyedFilter(bumped, (it: CartItem) => it.quantity != 0);
    var r := RemoveUnit(items, k);
    forall j | 0 <= j < |r| ensures r[j].cartId < nextCartId {
      var i :| 0 <= i < |bumped| && bumped[i] == r[j];
    }
  }

  /** Taking a unit out of a row and changing one cart's total keeps every schema constraint. */
  lemma RemoveUnitKeepsSchemaHolds(
    products: map<string, Product>, carts: seq<CartRow>, nextCartId: nat,
    items: seq<CartItem>, users: map<string, User>, i: nat, k: nat, total: int)
    requires SchemaHolds(products, carts, nextCartId, items, users)
    requires i < |carts| && k < |items|
    ensures SchemaHolds(products, carts[i := carts[i].(total := total)], nextCartId, RemoveUnit(items, k), users)
  {
    RemoveUnitKeepsSchema(items, k, nextCartId);
    var carts' := carts[i := carts[i].(total := total)];
    assert forall j :: 0 <= j < |carts'| ==> carts'[j].id == carts[j].id;
  }

  /** Adding a unit to cart `carts[i]` and changing its total keeps every schema constraint. */
  lemma AddUnitKeepsSchemaHolds(
    products: map<string, Product>, carts: seq<CartRow>, nextCartId: nat,
    items: seq<CartItem>, users: map<string, User>, i: nat, model: string, total: int)
    requires SchemaHolds(products, carts, nextCartId, items, users)
    requires i < |carts|
    ensures SchemaHolds(products, carts[i := carts[i].(total := total)], nextCartId, AddUnit(items, carts[i].id, model), users)
  {
    AddUnitKeepsSchema(items, carts[i].id, model, nextCartId);
    var carts' := carts[i := carts[i].(total := total)];
    assert forall j :: 0 <= j < |carts'| ==> carts'[j].id == carts[j].id;
  }

  /** Opening cart `nextCartId` with one row keeps every schema constraint. */
  lemma OpenCartKeepsSchemaHolds(
    products: map<string, Product>, carts: seq<CartRow>, nextCartId: nat,
    items: seq<CartItem>, users: map<string, User>, customer: string, model: string, total: int)
    requires SchemaHolds(products, carts, nextCartId, items, users)
    ensures SchemaHolds(
      products, carts + [CartRow(nextCartId, customer, false, None, total)], nextCartId + 1,
      items + [CartItem(nextCartId, model, 1)], users)
  {
    var items' := items + [CartItem(nextCartId, model, 1)];
    forall a, b | 0 <= a < b < |items'| ensures ItemKey(items'[a]) != ItemKey(items'[b]) {
      if b == |items| {
        assert items[a].cartId < nextCartId;
      }
    }
  }

  /** Emptying cart `carts[i]` and setting its total to 0 keeps every schema constraint. */
  lemma ClearKeepsSchemaHolds(
    products: map<string, Product>, carts: seq<CartRow>, nextCartId: nat,
    items: seq<CartItem>, users: map<string, User>, i: nat)
    requires SchemaHolds(products, carts, nextCartId, items, users)
    requires i < |carts|
    ensures SchemaHolds(products, carts[i := carts[i].(total := 0)], nextCartId, WithoutCart(items, carts[i].id), users)
  {
    KeyedFilter(items, (it: CartItem) => it.cartId != carts[i].id);
    var carts' := carts[i := carts[i].(total := 0)];
    assert forall j :: 0 <= j < |carts'| ==> carts'[j].id == carts[j].id;
    var items' := WithoutCart(items, carts[i].id);
    forall j | 0 <= j < |items'| ensures items'[j].cartId < nextCartId {
      var b :| 0 <= b < |items| && items[b] == items'[j];
    }
  }

  /** Sealing cart `carts[i]` and shipping its rows keeps every schema constraint. */
  lemma SealKeepsSchemaHolds(
    products: map<string, Product>, carts: seq<CartRow>, nextCartId: nat,
    items: seq<CartItem>, users: map<string, User>, i: nat, paymentDate: string)
    requires SchemaHolds(products, carts, nextCartId, items, users)
    requires i < |carts|
    ensures SchemaHolds(
      Shipped(products, items, carts[i].id), carts[i := carts[i].(paid := true, paymentDate := Some(paymentDate))],
      nextCartId, items, users)
  {
    var carts' := carts[i := carts[i].(paid := true, paymentDate := Some(paymentDate))];
    assert forall j :: 0 <= j < |carts'| ==> carts'[j].id == carts[j].id;
  }

  // ----------------------------------------------------------- invariants

  /** At most one unpaid cart per customer. */
  ghost predicate OneCurrentCart(carts: seq<CartRow>)
  {
    forall i, j :: 0 <= i < j < |carts| && !carts[i].paid && !carts[j].paid ==> carts[i].customer != carts[j].customer
  }

  /**
   * The invariants of the cart engine: one current cart per customer, no row
   * of quantity below 1, every row names a catalog product, and every cart's
   * total is the value of its rows at catalog prices.
   */
  ghost predicate Consistent(products: map<string, Product>, carts: seq<CartRow>, items: seq<CartItem>)
  {
    && OneCurrentCart(carts)
    && (forall k :: 0 <= k < |items| ==> items[k].quantity >= 1)
    && (forall k :: 0 <= k < |items| ==> items[k].model in products)
    && (forall i :: 0 <= i < |carts| ==> carts[i].total == CartValue(items, carts[i].id, products))
  }

  /** With one current cart per customer, the one `FindCurrent` finds is the only one. */
  lemma OnlyCurrent(carts: seq<CartRow>, customer: string)
    requires OneCurrentCart(carts)
    requires FindCurrent(carts, customer).Some?
    ensures forall j :: 0 <= j < |carts| && IsCurrentOf(carts[j], customer) ==> j == FindCurrent(carts, customer).value
  {
  }

  /**
   * Changing the rows of unpaid cart `carts[i]` by `delta` in value, and its
   * total by the same amount, keeps every invariant.
   */
  lemma ShiftKeepsConsistency(
    products: map<string, Product>, carts: seq<CartRow>, items: seq<CartItem>, items': seq<CartItem>,
    i: nat, delta: int)
    requires Consistent(products, carts, items)
    requires i < |carts|
    requires forall k :: 0 <= k < |items'| ==> items'[k].quantity >= 1 && items'[k].model in products
    requires CartValue(items', carts[i].id, products) == CartValue(items, carts[i].id, products) + delta
    requires forall j :: 0 <= j < |carts| && j != i ==>
      CartValue(items', carts[j].id, products) == CartValue(items, carts[j].id, products)
    ensures Consistent(products, carts[i := carts[i].(total := carts[i].total + delta)], items')
  {
  }

  /** Adding one unit of `model` to cart `carts[i]` and its price to the cart's total keeps every invariant. */
  lemma AddUnitKeepsConsistency(products: map<string, Product>, carts: seq<CartRow>, items: seq<CartItem>, i: nat, model: string)
    requires Consistent(products, carts, items)
    requires i < |carts| && model in products
    requires forall j :: 0 <= j < |carts| && j != i ==> carts[j].id != carts[i].id
    ensures Consistent(
      products,
      carts[i := carts[i].(total := carts[i].total + products[model].sellingPrice)],
      AddUnit(items, carts[i].id, model))
  {
    var id, price := carts[i].id, products[model].sellingPrice;
    var items' := AddUnit(items, id, model);
    match FindItem(items, id, model)
    case None =>
      var x := CartItem(id, model, 1);
      forall c ensures CartValue(items', c, products) == CartValue(items, c, products) + LineValue(x, c, products) {
        CartValueAppend(items, x, c, products);
      }
    case Some(k) =>
      var x := items[k].(quantity := items[k].quantity + 1);
      assert (items[k].quantity + 1) * price == items[k].quantity * price + price;
      forall c ensures CartValue(items', c, products)
        == CartValue(items, c, products) - LineValue(items[k], c, products) + LineValue(x, c, products) {
        CartValueUpdate(items, k, x, c, products);
      }
      assert forall j :: 0 <= j < |items'| ==> items'[j].quantity >= 1 && items'[j].model in products by {
        assert forall j :: 0 <= j < |items'| && j != k ==> items'[j] == items[j];
      }
    ShiftKeepsConsistency(products, carts, items, items', i, price);
  }

  /** Taking one unit out of row `k` takes that product's price off the value of its cart, and off no other cart. */
  lemma RemoveUnitValue(items: seq<CartItem>, k: nat, c: nat, products: map<string, Product>)
    requires k < |items| && items[k].model in products
    ensures CartValue(RemoveUnit(items, k), c, products)
         == CartValue(items, c, products) - if c == items[k].cartId then products[items[k].model].sellingPrice else 0
  {
    var price := products[items[k].model].sellingPrice;
    var x := items[k].(quantity := items[k].quantity - 1);
    assert (items[k].quantity - 1) * price == items[k].quantity * price - price;
    CartValueUpdate(items, k, x, c, products);
    CartValueDropZero(items[k := x], c, products);
  }

  /** Taking one unit out of a row of quantity at least 1 leaves only rows of quantity at least 1. */
  lemma RemoveUnitRows(items: seq<CartItem>, k: nat, products: map<string, Product>)
    requires k < |items|
    requires forall j :: 0 <= j < |items| ==> items[j].quantity >= 1 && items[j].model in products
    ensures forall j :: 0 <= j < |RemoveUnit(items, k)| ==>
      RemoveUnit(items, k)[j].quantity >= 1 && RemoveUnit(items, k)[j].model in products
  {
    var bumped := items[k := items[k].(quantity := items[k].quantity - 1)];
    var items' := RemoveUnit(items, k);
    forall j | 0 <= j < |items'| ensures items'[j].quantity >= 1 && items'[j].model in products {
      var b :| 0 <= b < |bumped| && bumped[b] == items'[j];
      assert b != k ==> bumped[b] == items[b];
    }
  }

  /** Taking one unit of the product of row `k` out of cart `carts[i]`, and its price off the total, keeps every invariant. */
  lemma RemoveUnitKeepsConsistency(products: map<string, Product>, carts: seq<CartRow>, items: seq<CartItem>, i: nat, k: nat)
    requires Consistent(products, carts, items)
    requires i < |carts| && k < |items| && items[k].cartId == carts[i].id
    requires forall j :: 0 <= j < |carts| && j != i ==> carts[j].id != carts[i].id
    ensures Consistent(
      products,
      carts[i := carts[i].(total := carts[i].total - products[items[k].model].sellingPrice)],
      RemoveUnit(items, k))
  {
    var price := products[items[k].model].sellingPrice;
    var items' := RemoveUnit(items, k);
    RemoveUnitValue(items, k, carts[i].id, products);
    forall j | 0 <= j < |carts| && j != i
      ensures CartValue(items', carts[j].id, products) == CartValue(items, carts[j].id, products)
    {
      RemoveUnitValue(items, k, carts[j].id, products);
    }
    RemoveUnitRows(items, k, products);
    ShiftKeepsConsistency(products, carts, items, items', i, -price);
    assert carts[i := carts[i].(total := carts[i].total + -price)] == carts[i := carts[i].(total := carts[i].total - price)];
  }

  /** Emptying cart `carts[i]` and setting its total to 0 keeps every invariant. */
  lemma ClearKeepsConsistency(products: map<string, Product>, carts: seq<CartRow>, items: seq<CartItem>, i: nat)
    requires Consistent(products, carts, items)
    requires i < |carts|
    requires forall j :: 0 <= j < |carts| && j != i ==> carts[j].id != carts[i].id
    ensures Consistent(products, carts[i := carts[i].(total := 0)], WithoutCart(items, carts[i].id))
  {
    var items' := WithoutCart(items, carts[i].id);
    forall c ensures CartValue(items', c, products) == if c == carts[i].id then 0 else CartValue(items, c, products) {
      CartValueWithoutCart(items, carts[i].id, c, products);
    }
    forall j | 0 <= j < |items'| ensures items'[j].quantity >= 1 && items'[j].model in products {
      var b :| 0 <= b < |items| && items[b] == items'[j];
    }
    ShiftKeepsConsistency(products, carts, items, items', i, -carts[i].total);
    assert carts[i := carts[i].(total := carts[i].total + -carts[i].total)] == carts[i := carts[i].(total := 0)];
  }

  /** Opening a new cart for a customer with no current cart, holding one unit of `model`, keeps every invariant. */
  lemma OpenCartKeepsConsistency(
    products: map<string, Product>, carts: seq<CartRow>, items: seq<CartItem>, nextCartId: nat,
    customer: string, model: string)
    requires Consistent(products, carts, items)
    requires CartIdsIssued(carts, items, nextCartId)
    requires FindCurrent(carts, customer).None?
    requires model in products
    ensures Consistent(
      products,
      carts + [CartRow(nextCartId, customer, false, None, products[model].sellingPrice)],
      items + [CartItem(nextCartId, model, 1)])
  {
    var carts' := carts + [CartRow(nextCartId, customer, false, None, products[model].sellingPrice)];
    var items' := items + [CartItem(nextCartId, model, 1)];
    forall c ensures CartValue(items', c, products) == CartValue(items, c, products) + LineValue(CartItem(nextCartId, model, 1), c, products) {
      CartValueAppend(items, CartItem(nextCartId, model, 1), c, products);
    }
    CartValueNoRows(items, nextCartId, products);
    forall j | 0 <= j < |carts'| ensures carts'[j].total == CartValue(items', carts'[j].id, products) {
      if j < |carts| { assert carts'[j] == carts[j]; }
    }
    forall i, j | 0 <= i < j < |carts'| && !carts'[i].paid && !carts'[j].paid
      ensures carts'[i].customer != carts'[j].customer
    {
      if j == |carts| { assert !IsCurrentOf(carts[i], customer); }
      else { assert carts'[i] == carts[i] && carts'[j] == carts[j]; }
    }
  }

  /** Sealing the current cart and shipping its rows keeps every invariant and leaves the customer without a current cart. */
  lemma SealKeepsConsistency(
    products: map<string, Product>, carts: seq<CartRow>, items: seq<CartItem>,
    customer: string, paymentDate: string)
    requires Consistent(products, carts, items)
    requires FindCurrent(carts, customer).Some?
    ensures var i := FindCurrent(carts, customer).value;
      var carts' := carts[i := carts[i].(paid := true, paymentDate := Some(paymentDate))];
      Consistent(Shipped(products, items, carts[i].id), carts', items)
      && FindCurrent(carts', customer).None?
  {
    var i := FindCurrent(carts, customer).value;
    var carts' := carts[i := carts[i].(paid := true, paymentDate := Some(paymentDate))];
    var shipped := Shipped(products, items, carts[i].id);
    forall c ensures CartValue(items, c, shipped) == CartValue(items, c, products) {
      CartValueSamePrices(items, c, products, shipped);
    }
    OnlyCurrent(carts, customer);
    assert forall j :: 0 <= j < |carts'| ==> !IsCurrentOf(carts'[j], customer);
  }

  /** A catalog change that keeps every product and its selling price keeps every invariant. */
  lemma CatalogChangeKeepsConsistency(
    products: map<string, Product>, products': map<string, Product>, carts: seq<CartRow>, items: seq<CartItem>)
    requires Consistent(products, carts, items)
    requires forall m :: m in products ==> m in products' && products'[m].sellingPrice == products[m].sellingPrice
    ensures Consistent(products', carts, items)
  {
    forall c ensures CartValue(items, c, products') == CartValue(items, c, products) {
      CartValueSamePrices(items, c, products, products');
    }
  }

  /** Deleting a product that no item row refers to keeps every invariant. */
  lemma CatalogDeleteKeepsConsistency(products: map<string, Product>, model: string, carts: seq<CartRow>, items: seq<CartItem>)
    requires Consistent(products, carts, items)
    requires forall k :: 0 <= k < |items| ==> items[k].model != model
    ensures Consistent(products - {model}, carts, items)
  {
    forall c ensures CartValue(items, c, products - {model}) == CartValue(items, c, products) {
      CartValueSamePrices(items, c, products, products - {model});
    }
  }
}

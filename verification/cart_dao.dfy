/**
 * The cart engine of dao/cartDAO.ts: every customer operation on carts, and
 * the two administrative ones.  Each method runs the guards of the source in
 * its order and then applies the statements the source issues, in sequence.
 */
module CartDao {
  import opened Wrappers
  import opened Sequences
  import opened ProductErrors
  import opened Failures
  import opened Schema
  import opened CartStore
  import opened Db

  /** Opens cart `nextCartId` for `customer` holding one unit of `model` at its selling price. */
  method OpenCart(db: Database, customer: string, model: string)
    requires db.WellFormed() && model in db.products && FindCurrent(db.carts, customer).None?
    modifies db`carts, db`nextCartId, db`cartItems
    ensures db.WellFormed()
    ensures var id := old(db.nextCartId);
      && db.carts == old(db.carts) + [CartRow(id, customer, false, None, db.products[model].sellingPrice)]
      && db.nextCartId == id + 1
      && db.cartItems == old(db.cartItems) + [CartItem(id, model, 1)]
    ensures old(db.Consistent()) ==> db.Consistent()
  {
    var id, price := db.nextCartId, db.products[model].sellingPrice;
    if db.Consistent() {
      OpenCartKeepsConsistency(db.products, db.carts, db.cartItems, id, customer, model);
    }
    OpenCartKeepsSchemaHolds(db.products, db.carts, id, db.cartItems, db.users, customer, model, price);
    db.carts, db.nextCartId, db.cartItems :=
      db.carts + [CartRow(id, customer, false, None, price)], id + 1, db.cartItems + [CartItem(id, model, 1)];
  }

  /** Adds one unit of `model` to cart row `i`, whose total grows by the selling price. */
  method AddUnitTo(db: Database, i: nat, model: string)
    requires db.WellFormed() && i < |db.carts| && model in db.products
    modifies db`carts, db`cartItems
    ensures db.WellFormed()
    ensures var cart := old(db.carts[i]);
      && db.carts == old(db.carts)[i := cart.(total := cart.total + db.products[model].sellingPrice)]
      && db.cartItems == AddUnit(old(db.cartItems), cart.id, model)
    ensures old(db.Consistent()) ==> db.Consistent()
  {
    var cart, price := db.carts[i], db.products[model].sellingPrice;
    if db.Consistent() {
      AddUnitKeepsConsistency(db.products, db.carts, db.cartItems, i, model);
    }
    AddUnitKeepsSchemaHolds(db.products, db.carts, db.nextCartId, db.cartItems, db.users, i, model, cart.total + price);
    db.carts, db.cartItems := db.carts[i := cart.(total := cart.total + price)], AddUnit(db.cartItems, cart.id, model);
  }

  /**
   * Adds one unit of `model` to the customer's current cart, opening a new
   * cart when there is none.  The catalog stock is only checked, never touched.
   */
  method AddToCart(db: Database, user: User, model: string) returns (r: Outcome<bool>)
    requires db.WellFormed()
    modifies db`carts, db`nextCartId, db`cartItems
    ensures db.WellFormed()
    ensures user.role != Customer ==> r == Fail(WrongUserCart)
    ensures user.role == Customer && model !in old(db.products) ==> r == Fail(ProductFailure(ProductNotFound))
    ensures user.role == Customer && model in old(db.products) && old(db.products[model].quantity) <= 0 ==>
      r == Fail(ProductFailure(EmptyProductStock))
    ensures r.Ok? <==> user.role == Customer && model in old(db.products) && old(db.products[model].quantity) > 0
    ensures r.Fail? ==> unchanged(db)
    ensures r.Ok? ==> r.value
    ensures r.Ok? && FindCurrent(old(db.carts), user.username).None? ==>
      var id := old(db.nextCartId);
      && db.carts == old(db.carts) + [CartRow(id, user.username, false, None, old(db.products[model].sellingPrice))]
      && db.nextCartId == id + 1
      && db.cartItems == old(db.cartItems) + [CartItem(id, model, 1)]
    ensures r.Ok? && FindCurrent(old(db.carts), user.username).Some? ==>
      var i := FindCurrent(old(db.carts), user.username).value;
      var cart := old(db.carts[i]);
      && db.carts == old(db.carts)[i := cart.(total := cart.total + old(db.products[model].sellingPrice))]
      && db.nextCartId == old(db.nextCartId)
      && db.cartItems == AddUnit(old(db.cartItems), cart.id, model)
    ensures old(db.Consistent()) ==> db.Consistent()
  {
    if user.role != Customer {
      return Fail(WrongUserCart);
    }
    if model !in db.products {
      return Fail(ProductFailure(ProductNotFound));
    }
    var product := db.products[model];
    if product.quantity <= 0 {
      return Fail(ProductFailure(EmptyProductStock));
    }
    match FindCurrent(db.carts, user.username) {
      case None => OpenCart(db, user.username, model);
      case Some(i) => AddUnitTo(db, i, model);
    }
    r := Ok(true);
  }

  /**
   * The customer's current cart hydrated with its lines at catalog price and
   * category, or a fresh empty cart (not stored) when there is none.
   */
  method GetCart(db: Database, user: User) returns (r: Outcome<Cart>)
    ensures user.role != Customer ==> r == Fail(WrongUserCart)
    ensures user.role == Customer && FindCurrent(db.carts, user.username).None? ==>
      r == Ok(Cart(user.username, false, Some(""), 0, []))
    ensures user.role == Customer && FindCurrent(db.carts, user.username).Some? ==>
      r == Ok(CartView(db.carts[FindCurrent(db.carts, user.username).value], db.cartItems, db.products))
    ensures r.Ok? ==> r.value.customer == user.username && !r.value.paid
    ensures r.Ok? && db.Consistent() ==>
      r.value.total == LinesValue(r.value.products) && forall j :: 0 <= j < |r.value.products| ==> r.value.products[j].quantity >= 1
  {
    if user.role != Customer {
      return Fail(WrongUserCart);
    }
    var current := FindCurrent(db.carts, user.username);
    if current.None? {
      return Ok(Cart(user.username, false, Some(""), 0, []));
    }
    var row := db.carts[current.value];
    LinesValueIsCartValue(db.cartItems, row.id, db.products);
    r := Ok(CartView(row, db.cartItems, db.products));
  }

  /**
   * The stock checks of checkout: each row of the cart joined with its
   * product, in table order, and the error of the first row that fails.
   */
  method CheckStock(db: Database, cartId: nat) returns (e: Option<ProductError>)
    ensures e == FirstStockError(db.cartItems, cartId, db.products)
    ensures e.None? <==> forall k :: 0 <= k < |db.cartItems| ==> RowStockError(db.cartItems[k], cartId, db.products).None?
  {
    var k := 0;
    while k < |db.cartItems|
      invariant 0 <= k <= |db.cartItems|
      invariant FirstStockError(db.cartItems[..k], cartId, db.products).None?
    {
      assert db.cartItems[..k + 1] == db.cartItems[..k] + [db.cartItems[k]];
      e := RowStockError(db.cartItems[k], cartId, db.products);
      if e.Some? {
        FirstStockErrorPrefix(db.cartItems, k + 1, cartId, db.products);
        return;
      }
      k := k + 1;
    }
    assert db.cartItems[..k] == db.cartItems;
    e := None;
  }

  /** Decrements the stock of each product in cart `cartId` by the units of each of its rows. */
  method ShipRows(db: Database, cartId: nat)
    modifies db`products
    ensures db.products == Shipped(old(db.products), db.cartItems, cartId)
    ensures old(db.Consistent()) ==> db.Consistent()
  {
    var items := db.cartItems;
    ghost var start := db.products;
    var stock := db.products;
    var k := 0;
    while k < |items|
      invariant 0 <= k <= |items|
      invariant stock == Shipped(start, items[..k], cartId)
      invariant db.products == start
    {
      ShippedNext(start, items, k, cartId);
      stock := ShipRow(stock, items[k], cartId);
      k := k + 1;
    }
    assert items[..k] == items;
    if db.Consistent() {
      assert stock == Shipped(db.products, items, cartId);
      forall m | m in db.products
        ensures m in stock && stock[m].sellingPrice == db.products[m].sellingPrice
      {
      }
      CatalogChangeKeepsConsistency(db.products, stock, db.carts, db.cartItems);
    }
    db.products := stock;
  }

  /** Marks `customer`'s current cart paid on `paymentDate` and ships its rows. */
  method Seal(db: Database, customer: string, paymentDate: string)
    requires db.WellFormed() && FindCurrent(db.carts, customer).Some?
    modifies db`carts, db`products
    ensures db.WellFormed()
    ensures var i := FindCurrent(old(db.carts), customer).value;
      var cart := old(db.carts[i]);
      && db.carts == old(db.carts)[i := cart.(paid := true, paymentDate := Some(paymentDate))]
      && db.products == Shipped(old(db.products), db.cartItems, cart.id)
    ensures old(db.Consistent()) ==> db.Consistent() && FindCurrent(db.carts, customer).None?
  {
    var i := FindCurrent(db.carts, customer).value;
    var cart := db.carts[i];
    if db.Consistent() {
      SealKeepsConsistency(db.products, db.carts, db.cartItems, customer, paymentDate);
    }
    SealKeepsSchemaHolds(db.products, db.carts, db.nextCartId, db.cartItems, db.users, i, paymentDate);
    db.carts := db.carts[i := cart.(paid := true, paymentDate := Some(paymentDate))];
    ShipRows(db, cart.id);
  }

  /**
   * Pays for the customer's current cart: every line's stock is checked
   * before anything is written, then the cart is sealed with `today` as its
   * payment date and each product's stock drops by the units in the cart.
   */
  method CheckoutCart(db: Database, user: User, today: string) returns (r: Outcome<bool>)
    requires db.WellFormed()
    modifies db`carts, db`products
    ensures db.WellFormed()
    ensures user.role != Customer ==> r == Fail(WrongUserCart)
    ensures user.role == Customer && FindCurrent(old(db.carts), user.username).None? ==> r == Fail(CartNotFound)
    ensures user.role == Customer && FindCurrent(old(db.carts), user.username).Some? ==>
      var cart := old(db.carts[FindCurrent(db.carts, user.username).value]);
      var shortage := FirstStockError(old(db.cartItems), cart.id, old(db.products));
      && (cart.total == 0 ==> r == Fail(EmptyCart))
      && (cart.total != 0 && shortage.Some? ==> r == Fail(ProductFailure(shortage.value)))
      && (cart.total != 0 && shortage.None? ==> r == Ok(true))
    ensures r.Fail? ==> unchanged(db)
    ensures r.Ok? ==>
      var i := FindCurrent(old(db.carts), user.username).value;
      var cart := old(db.carts[i]);
      && db.carts == old(db.carts)[i := cart.(paid := true, paymentDate := Some(today))]
      && db.products == Shipped(old(db.products), old(db.cartItems), cart.id)
      && db.cartItems == old(db.cartItems) && db.nextCartId == old(db.nextCartId)
      && db.reviews == old(db.reviews) && db.users == old(db.users)
    ensures r.Ok? && old(db.Consistent()) ==> db.Consistent() && FindCurrent(db.carts, user.username).None?
  {
    if user.role != Customer {
      return Fail(WrongUserCart);
    }
    var current := FindCurrent(db.carts, user.username);
    if current.None? {
      return Fail(CartNotFound);
    }
    var i := current.value;
    var cart := db.carts[i];
    if cart.total == 0 {
      return Fail(EmptyCart);
    }
    var shortage := CheckStock(db, cart.id);
    if shortage.Some? {
      return Fail(ProductFailure(shortage.value));
    }
    Seal(db, user.username, today);
    r := Ok(true);
  }

  /** The customer's paid carts, oldest first, each hydrated with its lines; never the current cart. */
  method GetCustomerCarts(db: Database, user: User) returns (r: Outcome<seq<Cart>>)
    ensures user.role != Customer ==> r == Fail(WrongUserCart)
    ensures user.role == Customer ==> r.Ok?
    ensures r.Ok? ==>
      var paid := PaidCartsOf(db.carts, user.username);
      |r.value| == |paid| && forall j :: 0 <= j < |paid| ==> r.value[j] == CartView(paid[j], db.cartItems, db.products)
    ensures r.Ok? ==> forall j :: 0 <= j < |r.value| ==> r.value[j].paid && r.value[j].customer == user.username
  {
    if user.role != Customer {
      return Fail(WrongUserCart);
    }
    var carts: seq<Cart> := [];
    ghost var seen: seq<CartRow> := [];
    var i := 0;
    while i < |db.carts|
      invariant 0 <= i <= |db.carts|
      invariant seen == PaidCartsOf(db.carts[..i], user.username)
      invariant |carts| == |seen|
      invariant forall j :: 0 <= j < |carts| ==> carts[j] == CartView(seen[j], db.cartItems, db.products)
    {
      assert db.carts[..i + 1][..i] == db.carts[..i];
      if db.carts[i].paid && db.carts[i].customer == user.username {
        carts := carts + [CartView(db.carts[i], db.cartItems, db.products)];
        seen := seen + [db.carts[i]];
      }
      i := i + 1;
    }
    assert db.carts[..i] == db.carts;
    r := Ok(carts);
  }

  /** Takes one unit out of item row `k` of cart `carts[i]` and its price off the cart's total. */
  method TakeUnit(db: Database, i: nat, k: nat)
    requires db.WellFormed()
    requires i < |db.carts| && k < |db.cartItems| && db.cartItems[k].cartId == db.carts[i].id
    requires db.cartItems[k].model in db.products
    modifies db`carts, db`cartItems
    ensures db.WellFormed()
    ensures db.carts == old(db.carts)[i := old(db.carts[i]).(total := old(db.carts[i].total - db.products[db.cartItems[k].model].sellingPrice))]
    ensures db.cartItems == RemoveUnit(old(db.cartItems), k)
    ensures old(db.Consistent()) ==> db.Consistent()
  {
    var cart := db.carts[i];
    var price := db.products[db.cartItems[k].model].sellingPrice;
    if db.Consistent() {
      RemoveUnitKeepsConsistency(db.products, db.carts, db.cartItems, i, k);
    }
    RemoveUnitKeepsSchemaHolds(db.products, db.carts, db.nextCartId, db.cartItems, db.users, i, k, cart.total - price);
    db.carts, db.cartItems := db.carts[i := cart.(total := cart.total - price)], RemoveUnit(db.cartItems, k);
  }

  /**
   * Takes one unit of `model` out of the customer's current cart, and its
   * price off the total; a row that reaches 0 units is deleted.
   */
  method RemoveProductFromCart(db: Database, user: User, model: string) returns (r: Outcome<bool>)
    requires db.WellFormed()
    modifies db`carts, db`cartItems
    ensures db.WellFormed()
    ensures user.role != Customer ==> r == Fail(WrongUserCart)
    ensures user.role == Customer && model !in old(db.products) ==> r == Fail(ProductFailure(ProductNotFound))
    ensures user.role == Customer && model in old(db.products) && FindCurrent(old(db.carts), user.username).None? ==>
      r == Fail(CartNotFound)
    ensures user.role == Customer && model in old(db.products) && FindCurrent(old(db.carts), user.username).Some? ==>
      var cart := old(db.carts[FindCurrent(db.carts, user.username).value]);
      (r == Fail(ProductNotInCart) <==> FindItem(old(db.cartItems), cart.id, model).None?)
    ensures r.Ok? <==>
      && user.role == Customer && model in old(db.products) && FindCurrent(old(db.carts), user.username).Some?
      && FindItem(old(db.cartItems), old(db.carts[FindCurrent(db.carts, user.username).value].id), model).Some?
    ensures r.Fail? ==> unchanged(db)
    ensures r.Ok? ==>
      var i := FindCurrent(old(db.carts), user.username).value;
      var cart := old(db.carts[i]);
      var k := FindItem(old(db.cartItems), cart.id, model).value;
      && r.value
      && db.carts == old(db.carts)[i := cart.(total := cart.total - old(db.products[model].sellingPrice))]
      && db.cartItems == RemoveUnit(old(db.cartItems), k)
    ensures old(db.Consistent()) ==> db.Consistent()
  {
    if user.role != Customer {
      return Fail(WrongUserCart);
    }
    if model !in db.products {
      return Fail(ProductFailure(ProductNotFound));
    }
    var current := FindCurrent(db.carts, user.username);
    if current.None? {
      return Fail(CartNotFound);
    }
    var i := current.value;
    var cart := db.carts[i];
    var found := FindItem(db.cartItems, cart.id, model);
    if found.None? {
      return Fail(ProductNotInCart);
    }
    TakeUnit(db, i, found.value);
    r := Ok(true);
  }

  /** Deletes every item row of cart row `i` and sets its total to 0. */
  method ClearRow(db: Database, i: nat)
    requires db.WellFormed() && i < |db.carts|
    modifies db`carts, db`cartItems
    ensures db.WellFormed()
    ensures db.carts == old(db.carts)[i := old(db.carts[i]).(total := 0)]
    ensures db.cartItems == WithoutCart(old(db.cartItems), old(db.carts[i].id))
    ensures old(db.Consistent()) ==> db.Consistent()
  {
    var cart := db.carts[i];
    if db.Consistent() {
      ClearKeepsConsistency(db.products, db.carts, db.cartItems, i);
    }
    ClearKeepsSchemaHolds(db.products, db.carts, db.nextCartId, db.cartItems, db.users, i);
    db.carts, db.cartItems := db.carts[i := cart.(total := 0)], WithoutCart(db.cartItems, cart.id);
  }

  /** Empties the customer's current cart: its total becomes 0, its rows are deleted, it stays unpaid. */
  method ClearCart(db: Database, user: User) returns (r: Outcome<bool>)
    requires db.WellFormed()
    modifies db`carts, db`cartItems
    ensures db.WellFormed()
    ensures user.role != Customer ==> r == Fail(WrongUserCart)
    ensures user.role == Customer && FindCurrent(old(db.carts), user.username).None? ==> r == Fail(CartNotFound)
    ensures r.Ok? <==> user.role == Customer && FindCurrent(old(db.carts), user.username).Some?
    ensures r.Fail? ==> unchanged(db)
    ensures r.Ok? ==>
      var i := FindCurrent(old(db.carts), user.username).value;
      var cart := old(db.carts[i]);
      && r.value
      && db.carts == old(db.carts)[i := cart.(total := 0)]
      && db.cartItems == WithoutCart(old(db.cartItems), cart.id)
    ensures r.Ok? ==> FindCurrent(db.carts, user.username) == FindCurrent(old(db.carts), user.username)
    ensures old(db.Consistent()) ==> db.Consistent()
  {
    if user.role != Customer {
      return Fail(WrongUserCart);
    }
    var current := FindCurrent(db.carts, user.username);
    if current.None? {
      return Fail(CartNotFound);
    }
    var i := current.value;
    ClearRow(db, i);
    assert forall j :: 0 <= j < |db.carts| ==> IsCurrentOf(db.carts[j], user.username) == IsCurrentOf(old(db.carts)[j], user.username);
    r := Ok(true);
  }

  /** `DELETE FROM carts`: no cart is left; rows of `cartItems` are not touched by the statement. */
  method DeleteAllCarts(db: Database) returns (r: bool)
    requires db.WellFormed()
    modifies db`carts
    ensures db.WellFormed()
    ensures r && db.carts == []
    ensures old(db.Consistent()) ==> db.Consistent()
  {
    db.carts := [];
    r := true;
  }

  /** Every cart of every customer, paid or not, in table order, each hydrated with its lines. */
  method GetAllCarts(db: Database) returns (carts: seq<Cart>)
    ensures |carts| == |db.carts|
    ensures forall j :: 0 <= j < |carts| ==> carts[j] == CartView(db.carts[j], db.cartItems, db.products)
  {
    carts := [];
    var i := 0;
    while i < |db.carts|
      invariant 0 <= i <= |db.carts|
      invariant |carts| == i
      invariant forall j :: 0 <= j < i ==> carts[j] == CartView(db.carts[j], db.cartItems, db.products)
    {
      carts := carts + [CartView(db.carts[i], db.cartItems, db.products)];
      i := i + 1;
    }
  }
}

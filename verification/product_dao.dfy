/**
 * The catalog operations of dao/productDAO.ts: registering a product,
 * changing and selling stock, the two listings and the deletions, each on the
 * `products` table of the shared database.
 */
module ProductDao {
  import opened Wrappers
  import opened ProductErrors
  import opened Failures
  import opened Schema
  import CartStore
  import opened Db

  // ------------------------------------------------------------ register

  /** A failed INSERT as SQLite reports it: a unique constraint on `table.column`. */
  datatype UniqueViolation = UniqueViolation(table: string, column: string)

  /**
   * How registerProducts classifies a failed INSERT as written: only the
   * text `product.model` is taken for a duplicate model; anything else is
   * passed on as a database error.
   */
  function InsertFailureAsWritten(v: UniqueViolation): (r: Failure)
    ensures r == ProductFailure(ProductAlreadyExists) <==> v == UniqueViolation("product", "model")
    ensures r != ProductFailure(ProductAlreadyExists) ==> r == DatabaseError
  {
    if v.table == "product" && v.column == "model" then ProductFailure(ProductAlreadyExists) else DatabaseError
  }

  /**
   * The table the INSERT writes is `products`, so a repeated model violates
   * `products.model`, which the classification above does not recognise.
   */
  lemma DuplicateModelNotRecognised()
    ensures InsertFailureAsWritten(UniqueViolation("products", "model")) == DatabaseError
    ensures InsertFailureAsWritten(UniqueViolation("products", "model")) != ProductFailure(ProductAlreadyExists)
  {
  }

  /** Inserts a new product; a model already in the catalog is refused. */
  method RegisterProducts(
    db: Database, model: string, category: string, quantity: int,
    details: Option<string>, sellingPrice: int, arrivalDate: Option<string>)
    returns (r: Outcome<bool>)
    requires db.WellFormed()
    modifies db`products
    ensures db.WellFormed()
    ensures model in old(db.products) <==> r == Fail(ProductFailure(ProductAlreadyExists))
    ensures r.Ok? <==> model !in old(db.products)
    ensures r.Fail? ==> unchanged(db)
    ensures r.Ok? ==>
      r.value && db.products == old(db.products)[model := Product(sellingPrice, model, category, arrivalDate, details, quantity)]
    ensures old(db.Consistent()) ==> db.Consistent()
  {
    if model in db.products {
      return Fail(ProductFailure(ProductAlreadyExists));
    }
    var products' := db.products[model := Product(sellingPrice, model, category, arrivalDate, details, quantity)];
    if db.Consistent() {
      CartStore.CatalogChangeKeepsConsistency(db.products, products', db.carts, db.cartItems);
    }
    db.products := products';
    r := Ok(true);
  }

  // ----------------------------------------------------- change quantity

  /** What a promise resolves to: a number, or text where `+` met a non-number. */
  datatype Report = Number(n: int) | Text(s: string)

  /** The decimal digits of `n`, as JavaScript converts a whole number to text. */
  function DigitsText(n: nat): (s: string)
    ensures |s| > 0
    ensures forall i :: 0 <= i < |s| ==> '0' <= s[i] <= '9'
  {
    if n < 10 then ["0123456789"[n]] else DigitsText(n / 10) + ["0123456789"[n % 10]]
  }

  /** A whole number as text, with a leading `-` when negative. */
  function NumberText(n: int): (s: string)
    ensures |s| > 0
  {
    if n < 0 then "-" + DigitsText(-n) else DigitsText(n)
  }

  /**
   * What changeProductQuantity stores and what it resolves to, as written:
   * the UPDATE stores `amount` itself, and the promise resolves `stock +
   * amount` where `stock` is the row `{quantity: n}`, so `+` joins the
   * object's text `[object Object]` with the amount's digits.
   */
  function ChangeQuantityAsWritten(amount: int): (r: (int, Report))
    ensures r.0 == amount
    ensures r.1.Text? && |r.1.s| > 15 && r.1.s[..15] == "[object Object]"
  {
    (amount, Text("[object Object]" + NumberText(amount)))
  }

  /**
   * As written, the caller is never told the new stock (the answer is text,
   * not a number), and unless the stock was 0 the quantity stored is not
   * old + amount either.
   */
  lemma StoredQuantityDisagreesWithReport(stock: int, amount: int)
    ensures ChangeQuantityAsWritten(amount).1 != Number(stock + amount)
    ensures ChangeQuantityAsWritten(amount).1 != Number(ChangeQuantityAsWritten(amount).0)
    ensures stock != 0 ==> ChangeQuantityAsWritten(amount).0 != stock + amount
    ensures ChangeQuantityAsWritten(5) == (5, Text("[object Object]5"))
  {
    assert DigitsText(5) == "5";
    assert "[object Object]" + NumberText(5) == "[object Object]5";
  }

  /**
   * Adds `amount` units to the stock of `model` and reports the new stock:
   * the stored quantity and the reported one agree.
   */
  method ChangeProductQuantity(db: Database, model: string, amount: int) returns (r: Outcome<int>)
    requires db.WellFormed()
    modifies db`products
    ensures db.WellFormed()
    ensures model !in old(db.products) <==> r == Fail(ProductFailure(ProductNotFound))
    ensures r.Ok? <==> model in old(db.products)
    ensures r.Fail? ==> unchanged(db)
    ensures r.Ok? ==>
      var before := old(db.products[model]);
      && r.value == before.quantity + amount
      && db.products == old(db.products)[model := before.(quantity := before.quantity + amount)]
      && db.products[model].quantity == r.value
    ensures old(db.Consistent()) ==> db.Consistent()
  {
    if model !in db.products {
      return Fail(ProductFailure(ProductNotFound));
    }
    var p := db.products[model];
    var products' := db.products[model := p.(quantity := p.quantity + amount)];
    if db.Consistent() {
      CartStore.CatalogChangeKeepsConsistency(db.products, products', db.carts, db.cartItems);
    }
    db.products := products';
    r := Ok(p.quantity + amount);
  }

  // ---------------------------------------------------------------- sell

  /**
   * sellProduct as written: the lookup answers the row `{quantity: n}`, not
   * the number n, so neither `stock == 0` nor `stock < quantity` ever holds
   * and every sale of a stored model goes through.
   */
  function SellProductAsWritten(products: map<string, Product>, model: string, quantity: int)
    : (r: (map<string, Product>, Outcome<bool>))
    ensures r.1.Ok? <==> model in products
    ensures r.1.Ok? ==> model in r.0 && r.0[model].quantity == products[model].quantity - quantity
  {
    if model !in products then (products, Fail(ProductFailure(ProductNotFound)))
    else (products[model := products[model].(quantity := products[model].quantity - quantity)], Ok(true))
  }

  /** As written, selling more units than are in stock succeeds and leaves the stock negative. */
  lemma OversaleAccepted(products: map<string, Product>, model: string, quantity: int)
    requires model in products && products[model].quantity < quantity
    ensures SellProductAsWritten(products, model, quantity).1 == Ok(true)
    ensures SellProductAsWritten(products, model, quantity).0[model].quantity < 0
  {
  }

  /**
   * Sells `quantity` units of `model`.  A missing model, an empty stock and a
   * stock below the request are refused, in that order; a sale never leaves
   * the stock negative.
   */
  method SellProduct(db: Database, model: string, quantity: int) returns (r: Outcome<bool>)
    requires db.WellFormed()
    modifies db`products
    ensures db.WellFormed()
    ensures model !in old(db.products) ==> r == Fail(ProductFailure(ProductNotFound))
    ensures model in old(db.products) && old(db.products[model].quantity) == 0 ==>
      r == Fail(ProductFailure(EmptyProductStock))
    ensures model in old(db.products) && old(db.products[model].quantity) != 0 && old(db.products[model].quantity) < quantity ==>
      r == Fail(ProductFailure(LowProductStock))
    ensures r.Ok? <==>
      model in old(db.products) && old(db.products[model].quantity) != 0 && old(db.products[model].quantity) >= quantity
    ensures r.Fail? ==> unchanged(db)
    ensures r.Ok? ==>
      var before := old(db.products[model]);
      && r.value
      && db.products == old(db.products)[model := before.(quantity := before.quantity - quantity)]
      && db.products[model].quantity >= 0
    ensures old(db.Consistent()) ==> db.Consistent()
  {
    if model !in db.products {
      return Fail(ProductFailure(ProductNotFound));
    }
    var p := db.products[model];
    if p.quantity == 0 {
      return Fail(ProductFailure(EmptyProductStock));
    }
    if p.quantity < quantity {
      return Fail(ProductFailure(LowProductStock));
    }
    var products' := db.products[model := p.(quantity := p.quantity - quantity)];
    if db.Consistent() {
      CartStore.CatalogChangeKeepsConsistency(db.products, products', db.carts, db.cartItems);
    }
    db.products := products';
    r := Ok(true);
  }

  // ------------------------------------------------------------ listings

  /** The rule the listing requests are expected to follow, which the DAO itself does not check. */
  function GroupingError(grouping: Option<string>, category: Option<string>, model: Option<string>): (e: Option<ProductError>)
    ensures e.None? <==>
      || (grouping == Some("model") && model.Some? && category.None?)
      || (grouping == Some("category") && category.Some? && model.None?)
      || (grouping.None? && category.None? && model.None?)
    ensures e.Some? ==> e.value == ProductInvalidGrouping && Code(e.value) == 422
  {
    match grouping
    case None => if category.None? && model.None? then None else Some(ProductInvalidGrouping)
    case Some(g) =>
      if g == "model" then
        if model.Some? && category.None? then None else Some(ProductInvalidGrouping)
      else if g == "category" then
        if category.Some? && model.None? then None else Some(ProductInvalidGrouping)
      else Some(ProductInvalidGrouping)
  }

  /** The `WHERE` clause of a listing that returns several rows. */
  datatype Selection = Everything | OfCategory(category: Option<string>)

  /** Whether a product passes the selection; `availableOnly` adds `quantity > 0`. */
  predicate Selects(sel: Selection, availableOnly: bool, p: Product)
  {
    && (sel.OfCategory? ==> Some(p.category) == sel.category)
    && (availableOnly ==> p.quantity > 0)
  }

  /** `rows` holds, once each, exactly the catalog's products that the selection keeps. */
  ghost predicate Lists(rows: seq<Product>, products: map<string, Product>, sel: Selection, availableOnly: bool)
  {
    && (forall i :: 0 <= i < |rows| ==>
          rows[i].model in products && products[rows[i].model] == rows[i] && Selects(sel, availableOnly, rows[i]))
    && (forall m :: m in products && Selects(sel, availableOnly, products[m]) ==> products[m] in rows)
    && (forall i, j :: 0 <= i < j < |rows| ==> rows[i].model != rows[j].model)
  }

  /**
   * The "model" grouping, which reads the single row `WHERE model = ?` (and
   * `quantity > 0` for the available listing): that product alone, or
   * ProductNotFound when no row matches.
   */
  function ModelRow(products: map<string, Product>, model: Option<string>, availableOnly: bool): (r: Outcome<seq<Product>>)
    ensures r.Ok? <==> model.Some? && model.value in products && (availableOnly ==> products[model.value].quantity > 0)
    ensures r.Ok? ==> r.value == [products[model.value]]
    ensures r.Fail? ==> r.failure == ProductFailure(ProductNotFound)
  {
    match model
    case None => Fail(ProductFailure(ProductNotFound))
    case Some(m) =>
      if m in products && (!availableOnly || products[m].quantity > 0) then Ok([products[m]])
      else Fail(ProductFailure(ProductNotFound))
  }

  /** The "model" grouping as written: a matching row is found, and an empty list is resolved. */
  function ModelRowAsWritten(products: map<string, Product>, model: Option<string>, availableOnly: bool): (r: Outcome<seq<Product>>)
    ensures r.Ok? <==> ModelRow(products, model, availableOnly).Ok?
    ensures r.Ok? ==> r.value == []
    ensures r.Fail? ==> r.failure == ProductFailure(ProductNotFound)
  {
    match model
    case None => Fail(ProductFailure(ProductNotFound))
    case Some(m) =>
      if m in products && (!availableOnly || products[m].quantity > 0) then Ok([])
      else Fail(ProductFailure(ProductNotFound))
  }

  /** Whenever the product exists, the as-written grouping answers with no product at all. */
  lemma ModelGroupingLosesProduct(products: map<string, Product>, m: string, availableOnly: bool)
    requires m in products && (availableOnly ==> products[m].quantity > 0)
    ensures ModelRowAsWritten(products, Some(m), availableOnly) == Ok([])
    ensures ModelRow(products, Some(m), availableOnly) == Ok([products[m]])
  {
  }

  /** What a listing request answers: one row for the "model" grouping, otherwise every selected product. */
  ghost predicate Answers(
    r: Outcome<seq<Product>>, products: map<string, Product>,
    grouping: Option<string>, category: Option<string>, model: Option<string>, availableOnly: bool)
  {
    if grouping == Some("model") then r == ModelRow(products, model, availableOnly)
    else
      var sel := if grouping == Some("category") then OfCategory(category) else Everything;
      r.Ok? && Lists(r.value, products, sel, availableOnly)
  }

  /** The `forEach`/`push` over the matching rows: every selected product, once, in some order. */
  method SelectRows(db: Database, sel: Selection, availableOnly: bool) returns (rows: seq<Product>)
    requires CatalogKeyed(db.products)
    ensures Lists(rows, db.products, sel, availableOnly)
  {
    rows := [];
    var rest := db.products.Keys;
    while rest != {}
      invariant rest <= db.products.Keys
      invariant forall i :: 0 <= i < |rows| ==>
        rows[i].model in db.products.Keys - rest && db.products[rows[i].model] == rows[i] && Selects(sel, availableOnly, rows[i])
      invariant forall m :: m in db.products.Keys - rest && Selects(sel, availableOnly, db.products[m]) ==> db.products[m] in rows
      invariant forall i, j :: 0 <= i < j < |rows| ==> rows[i].model != rows[j].model
      decreases rest
    {
      var m :| m in rest;
      var p := db.products[m];
      if Selects(sel, availableOnly, p) {
        rows := rows + [p];
      }
      rest := rest - {m};
    }
  }

  /** The listing both getProducts and getAvailableProducts perform. */
  method Query(db: Database, grouping: Option<string>, category: Option<string>, model: Option<string>, availableOnly: bool)
    returns (r: Outcome<seq<Product>>)
    requires db.WellFormed()
    ensures Answers(r, db.products, grouping, category, model, availableOnly)
  {
    if grouping == Some("model") {
      r := ModelRow(db.products, model, availableOnly);
    } else if grouping == Some("category") {
      var rows := SelectRows(db, OfCategory(category), availableOnly);
      r := Ok(rows);
    } else {
      var rows := SelectRows(db, Everything, availableOnly);
      r := Ok(rows);
    }
  }

  /** Every product, those of one category, or the one model asked for. */
  method GetProducts(db: Database, grouping: Option<string>, category: Option<string>, model: Option<string>)
    returns (r: Outcome<seq<Product>>)
    requires db.WellFormed()
    ensures Answers(r, db.products, grouping, category, model, false)
  {
    r := Query(db, grouping, category, model, false);
  }

  /** As GetProducts, restricted to products with stock above 0. */
  method GetAvailableProducts(db: Database, grouping: Option<string>, category: Option<string>, model: Option<string>)
    returns (r: Outcome<seq<Product>>)
    requires db.WellFormed()
    ensures Answers(r, db.products, grouping, category, model, true)
    ensures r.Ok? ==> forall i :: 0 <= i < |r.value| ==> r.value[i].quantity > 0
  {
    r := Query(db, grouping, category, model, true);
  }

  /** The available listing is the full listing without the products out of stock. */
  lemma AvailableIsStockedPart(
    products: map<string, Product>, sel: Selection, all: seq<Product>, available: seq<Product>, p: Product)
    requires Lists(all, products, sel, false) && Lists(available, products, sel, true)
    ensures p in available <==> p in all && p.quantity > 0
  {
    if p in all && p.quantity > 0 {
      var i :| 0 <= i < |all| && all[i] == p;
      assert products[p.model] == p;
    }
    if p in available {
      var i :| 0 <= i < |available| && available[i] == p;
      assert products[p.model] == p;
    }
  }

  // ------------------------------------------------------------ deletions

  /**
   * deleteProduct as written: the lookup's row parameter shadows the `model`
   * argument, so the DELETE binds the row object, which equals no stored
   * model.  A missing model is refused; otherwise nothing is deleted and the
   * answer is still `true`.
   */
  function DeleteProductAsWritten(products: map<string, Product>, model: string): (r: (map<string, Product>, Outcome<bool>))
    ensures r.1 == Fail(ProductFailure(ProductNotFound)) <==> model !in products
  {
    if model !in products then (products, Fail(ProductFailure(ProductNotFound)))
    else (products, Ok(true))
  }

  /** As written, deleting a product that exists reports success and leaves it in the catalog. */
  lemma DeleteProductKeepsProduct(products: map<string, Product>, model: string)
    requires model in products
    ensures DeleteProductAsWritten(products, model) == (products, Ok(true))
    ensures model in DeleteProductAsWritten(products, model).0
  {
  }

  /** Deletes one product; a missing model is refused. */
  method DeleteProduct(db: Database, model: string) returns (r: Outcome<bool>)
    requires db.WellFormed()
    modifies db`products
    ensures db.WellFormed()
    ensures model !in old(db.products) <==> r == Fail(ProductFailure(ProductNotFound))
    ensures r.Ok? <==> model in old(db.products)
    ensures r.Fail? ==> unchanged(db)
    ensures r.Ok? ==> r.value && db.products == old(db.products) - {model}
    ensures old(db.Consistent()) && (forall k :: 0 <= k < |db.cartItems| ==> db.cartItems[k].model != model) ==>
      db.Consistent()
  {
    if model !in db.products {
      return Fail(ProductFailure(ProductNotFound));
    }
    if db.Consistent() && forall k :: 0 <= k < |db.cartItems| ==> db.cartItems[k].model != model {
      CartStore.CatalogDeleteKeepsConsistency(db.products, model, db.carts, db.cartItems);
    }
    db.products := db.products - {model};
    r := Ok(true);
  }

  /** Empties the catalog. */
  method DeleteAllProducts(db: Database) returns (r: bool)
    requires db.WellFormed()
    modifies db`products
    ensures db.WellFormed()
    ensures r && db.products == map[]
    ensures old(db.Consistent()) && db.cartItems == [] ==> db.Consistent()
  {
    db.products := map[];
    r := true;
  }
}

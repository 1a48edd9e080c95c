/**
 * The rows of the tables the DAOs read and write, the objects they return,
 * and the constraints the database schema itself enforces on those tables.
 */
module Schema {
  import opened Wrappers

  /** The three roles a user account can have. */
  datatype Role = Customer | Manager | Admin

  datatype User = User(username: string, name: string, surname: string, role: Role, address: string, birthdate: string)

  /** A row of the `products` table; prices and stock are integers (e.g. cents, units). */
  datatype Product = Product(
    sellingPrice: int,
    model: string,
    category: string,
    arrivalDate: Option<string>,
    details: Option<string>,
    quantity: int)

  /** A row of the `carts` table; `paymentDate` is NULL until checkout. */
  datatype CartRow = CartRow(id: nat, customer: string, paid: bool, paymentDate: Option<string>, total: int)

  /** A row of the `cartItems` table. */
  datatype CartItem = CartItem(cartId: nat, model: string, quantity: int)

  /** A row of the `reviews` table. */
  datatype Review = Review(model: string, user: string, score: int, date: string, comment: string)

  /** A cart line as returned to the caller: an item joined with its product. */
  datatype ProductInCart = ProductInCart(model: string, quantity: int, category: string, price: int)

  /** A cart as returned to the caller. */
  datatype Cart = Cart(customer: string, paid: bool, paymentDate: Option<string>, total: int, products: seq<ProductInCart>)

  function ItemKey(it: CartItem): (nat, string) { (it.cartId, it.model) }

  /** `(cart_id, product_model)` is the key of `cartItems`. */
  ghost predicate ItemsKeyed(items: seq<CartItem>)
  {
    forall a, b :: 0 <= a < b < |items| ==> ItemKey(items[a]) != ItemKey(items[b])
  }

  /** `products.model` is the key of the catalog. */
  ghost predicate CatalogKeyed(products: map<string, Product>)
  {
    forall m :: m in products ==> products[m].model == m
  }

  /** `users.username` is the key of the user store. */
  ghost predicate UsersKeyed(users: map<string, User>)
  {
    forall u :: u in users ==> users[u].username == u
  }

  /** `carts.id` is an autoincremented primary key, and `cartItems` only ever refer to issued ids. */
  ghost predicate CartIdsIssued(carts: seq<CartRow>, items: seq<CartItem>, nextCartId: nat)
  {
    && (forall i :: 0 <= i < |carts| ==> carts[i].id < nextCartId)
    && (forall i, j :: 0 <= i < j < |carts| ==> carts[i].id != carts[j].id)
    && (forall k :: 0 <= k < |items| ==> items[k].cartId < nextCartId)
  }

  /** The schema constraints of the whole database. */
  ghost predicate SchemaHolds(
    products: map<string, Product>, carts: seq<CartRow>, nextCartId: nat,
    items: seq<CartItem>, users: map<string, User>)
  {
    && CatalogKeyed(products)
    && CartIdsIssued(carts, items, nextCartId)
    && ItemsKeyed(items)
    && UsersKeyed(users)
  }
}

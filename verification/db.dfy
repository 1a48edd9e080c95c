/**
 * The database handle every DAO shares: its tables, held as fields that the
 * DAO methods update in place.
 */
module Db {
  import opened Schema
  import CartStore

  class Database {
    /** `products`, keyed by model. */
    var products: map<string, Product>
    /** `carts`, in insertion order. */
    var carts: seq<CartRow>
    /** The id the next inserted cart receives (the autoincrement counter). */
    var nextCartId: nat
    /** `cartItems`, in insertion order. */
    var cartItems: seq<CartItem>
    /** `reviews`, in insertion order. */
    var reviews: seq<Review>
    /** `users`, keyed by username. */
    var users: map<string, User>

    /** The constraints the schema enforces. */
    ghost predicate WellFormed()
      reads this
    {
      SchemaHolds(products, carts, nextCartId, cartItems, users)
    }

    /** The invariants the cart engine keeps. */
    ghost predicate Consistent()
      reads this
    {
      CartStore.Consistent(products, carts, cartItems)
    }

    /** An empty database. */
    constructor ()
      ensures products == map[] && carts == [] && nextCartId == 0 && cartItems == []
      ensures reviews == [] && users == map[]
      ensures WellFormed() && Consistent()
    {
      products, carts, nextCartId, cartItems := map[], [], 0, [];
      reviews, users := [], map[];
    }
  }
}

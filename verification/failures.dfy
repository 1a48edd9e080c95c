/**
 * Every error the modelled DAOs and controllers reject with, and the outcome of
 * an operation: the value its promise resolves to, or the error it rejects with.
 * The cart, review and user error classes (errors/cartError.ts, errors/reviewError.ts,
 * errors/userError.ts) are not part of this model beyond their names.
 */
module Failures {
  import opened ProductErrors

  datatype Failure =
    | ProductFailure(error: ProductError)
      // errors/cartError.ts
    | WrongUserCart
    | CartNotFound
    | ProductNotInCart
    | EmptyCart
      // errors/reviewError.ts
    | ExistingReview
    | NoReviewProduct
      // errors/userError.ts
    | UserNotFound
    | UserNotAdmin
    | UserIsAdmin
    | UnauthorizedUser
      // a database error passed on as it is
    | DatabaseError

  datatype Outcome<+T> = Ok(value: T) | Fail(failure: Failure)
}

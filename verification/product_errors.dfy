/**
 * The seven product errors of errors/productError.ts.  Each error class only
 * carries a constant message and a constant HTTP status code.
 */
module ProductErrors {

  datatype ProductError =
    | ProductNotFound
    | ProductAlreadyExists
    | ProductSold
    | EmptyProductStock
    | LowProductStock
    | ProductInvalidDate
    | ProductInvalidGrouping

  /** The `customMessage` each error is constructed with. */
  function Message(e: ProductError): (m: string)
    ensures |m| > 0
  {
    match e
    case ProductNotFound => "Product not found"
    case ProductAlreadyExists => "The product already exists"
    case ProductSold => "Product already sold"
    case EmptyProductStock => "Product stock is empty"
    case LowProductStock => "Product stock cannot satisfy the requested quantity"
    case ProductInvalidDate => "Date is not a valid one"
    case ProductInvalidGrouping => "Grouping settings are not compliant"
  }

  /** The `customCode` each error is constructed with, i.e. the HTTP status it is reported as. */
  function Code(e: ProductError): (c: int)
    ensures c == 404 <==> e.ProductNotFound?
    ensures c == 400 <==> e.ProductInvalidDate?
    ensures c == 422 <==> e.ProductInvalidGrouping?
    ensures c == 409 <==> e.ProductAlreadyExists? || e.ProductSold? || e.EmptyProductStock? || e.LowProductStock?
  {
    match e
    case ProductNotFound => 404
    case ProductAlreadyExists => 409
    case ProductSold => 409
    case EmptyProductStock => 409
    case LowProductStock => 409
    case ProductInvalidDate => 400
    case ProductInvalidGrouping => 422
  }

  /** A client can tell every product error apart by its message alone. */
  lemma MessagesDistinct(e1: ProductError, e2: ProductError)
    ensures Message(e1) == Message(e2) ==> e1 == e2
  {
  }

  /** The not-found message is the one the catalog reports for an unknown model. */
  lemma NotFoundMessage()
    ensures Message(ProductNotFound) == "Product not found" && Code(ProductNotFound) == 404
  {
  }
}

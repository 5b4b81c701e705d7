/** Optional values, the errors the HTTP handlers raise, and a result type carrying one of them. */
module Outcomes {

  datatype Option<+T> = None | Some(value: T)

  /** The HTTP errors raised by the cart and order handlers. */
  datatype Error =
    | ProductNotFound                    // 404 "Product not found"
    | InvalidQuantity                    // a non-positive quantity (see the README's findings)
    | CartEmpty                          // 400 "Cart is empty"
    | NotEnoughStock(productName: string) // 400 "Not enough stock for product <name>"
    | IntegrityError                     // the store refuses an insert that breaks a unique column

  datatype Result<+T> = Ok(value: T) | Err(error: Error)
}

/** Identifiers, optional values and the result codes every controller call ends with. */
module Types {

  datatype Option<+T> = None | Some(value: T)

  /** Identifiers are compared only for equality, as the controllers compare `toString()` forms. */
  type UserId = string
  type ItemId = string
  /** Order and delivery identifiers are allocated by the store, in increasing order. */
  type OrderId = nat
  type DeliveryId = nat

  /** What a controller call answers, in place of its HTTP status and message. */
  datatype Code =
    | Ok
    | NotFound
    | Forbidden
    | IllegalTransition
    | InsufficientStock(name: string, available: int, requested: int)
    | NotReady
    | NotDelivered
    | EmptyCart
    | Validation
      /** An exception reached the controller's catch block (HTTP 500). */
    | ServerError

  /** JavaScript truthiness of an optional string: an absent value and "" are falsy. */
  predicate Truthy(s: Option<string>)
  {
    s.Some? && s.value != ""
  }

  /** JavaScript's `s || d` on an optional string. */
  function OrElse(s: Option<string>, d: string): string
  {
    if Truthy(s) then s.value else d
  }
}

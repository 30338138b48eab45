/** The records of the fleet inventory schema that the stock rules and the
    field validators read, reduced to the fields they look at. Foreign keys
    are surrogate ids; a Delivery carries the PurchaseRequest it points to,
    because the delivery rule reads through that link. */
module Entities {

  type PartId = nat

  datatype Vehicle = Vehicle(vin: string, year: int, licensePlate: string)

  /** `quantity` is whatever the instance holds when it is saved: the field
      validators are not run by a plain save, so it may be any integer. */
  datatype PurchaseRequest = PurchaseRequest(part: PartId, quantity: int)

  datatype Delivery = Delivery(request: PurchaseRequest, received: bool)

  datatype Maintenance = Maintenance(part: PartId)

  datatype Option<T> = None | Some(value: T)

  /** Why a save is refused. */
  datatype SaveError =
    | QuantityNotProvided  // a new Inventory row without a quantity violates NOT NULL
    | QuantityBelowZero    // the positive-integer column refuses a negative count
    | QuantityNotPositive  // the purchase-request pre-save check

  datatype Result<T> = Ok(value: T) | Err(error: SaveError)

  datatype Outcome = Pass | Fail(error: SaveError)
}

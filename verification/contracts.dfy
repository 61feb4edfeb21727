/** The records the relay exchanges over its queues. They carry no behaviour;
    the central system's interfaces `IProductUpdate` and `IProductImageUpdate`
    expose exactly the fields of `ProductUpdate` and `ProductImageUpdate`. */
module Contracts {
  import opened Decimals

  /** A quantity and the units it is measured in. */
  datatype QuantityUnits = QuantityUnits(Quantity: Decimal, Units: string)

  /** An inventory adjustment for the central system's "productupdate" queue. */
  datatype ProductUpdate = ProductUpdate(
    CustomerId: string,
    BranchId: string,
    ProductId: string,
    Adjustment: QuantityUnits,
    ReasonCode: string)

  /** A published product image for the central system's "productimageupdate" queue. */
  datatype ProductImageUpdate = ProductImageUpdate(
    ImageUri: string,
    ImageType: string,
    ProductId: string,
    CustomerId: string)

  /** The read-only views the central system consumes. */
  type IProductUpdate = ProductUpdate
  type IProductImageUpdate = ProductImageUpdate
}

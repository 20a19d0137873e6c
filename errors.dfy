/** The exceptions the fulfilment core can raise, one constructor per cause. */
module Errors {
  import opened ProductTypes

  /** The optional date fields of a product that a rule may dereference. */
  datatype DateField = ExpiryDate | SeasonStartDate | SeasonEndDate

  datatype Error =
    | OrderNotFound                          // RuntimeException("Order not found")
    | InvalidLabel(cause: LabelError)        // thrown by ProductType.from
    | NoStrategyForType(productType: ProductType)  // IllegalArgumentException("No strategy for type ...")
    | DuplicateStrategy(productType: ProductType)  // IllegalStateException from Collectors.toMap
    | MissingDate(field: DateField)          // NullPointerException on a null LocalDate
}

/** The entities shared by both versions of the plugin: the stored rate rule,
    the shipping methods and options it prices, the settings bag and the
    outcomes of the admin actions. */
module Domain {
  import opened Wrappers

  /** One configured rate rule (the ShippingByTotalRecord entity). A scope
      field that is 0 is a wildcard. Decimal amounts are exact reals. */
  datatype Record = Record(
    id: int,
    shippingMethodId: int,
    storeId: int,
    warehouseId: int,
    countryId: int,
    stateProvinceId: int,
    zipPostalCode: Option<string>,
    displayOrder: int,
    from: real,
    to: real,
    usePercentage: bool,
    shippingChargePercentage: real,
    shippingChargeAmount: real)

  /** The charge field of the rule's own mode. */
  function ActiveCharge(r: Record): real {
    if r.usePercentage then r.shippingChargePercentage else r.shippingChargeAmount
  }

  /** The authoring convention: the charge field of the other mode is zero. */
  predicate InactiveChargeZero(r: Record) {
    if r.usePercentage then r.shippingChargeAmount == 0.0 else r.shippingChargePercentage == 0.0
  }

  /** A shipping method of the store's catalogue, its name and description
      already localised. */
  datatype ShippingMethod = ShippingMethod(id: int, name: string, description: string)

  /** One priced option of a shipping-options response. */
  datatype ShippingOption = ShippingOption(name: string, description: string, rate: real)

  /** The plugin's one-flag settings bag, shared by reference between the
      rate computation and the admin controller. */
  class ShippingByTotalSettings {
    var limitMethodsToCreated: bool

    constructor (limitMethodsToCreated: bool)
      ensures this.limitMethodsToCreated == limitMethodsToCreated
    {
      this.limitMethodsToCreated := limitMethodsToCreated;
    }
  }

  /** How a service call that takes a record ends. */
  datatype Status = Done | ArgumentNullThrown

  /** How an admin action ends; response bodies are not modelled. */
  datatype ActionResult = Succeeded | AccessDenied | ModelStateError | NullReferenceThrown
}

/**
 * The records of src/types/types.ts that the offline subsystem stores, builds or returns.
 * Only the fields that the offline subsystem reads or sets are kept.
 */
module Types {
  import opened Wrappers

  /** A `{label, value}` pair (`caption` is the `label` field), used for roles and for the shipment status. */
  datatype Label = Label(caption: string, value: string)

  datatype VehicleBrand = VehicleBrand(id: int, name: string)

  datatype Counterparty = Counterparty(id: int, guid: string, name: string, bin: string, isActive: bool)

  datatype User = User(
    id: int,
    name: string,
    email: string,
    phone: string,
    iin: string,
    role: Label,
    isActive: bool,
    counterparty: Option<Counterparty>)

  datatype Contract = Contract(id: int, guid: string, number: string, startDate: string, endDate: string, isActive: bool)

  datatype Product = Product(id: int, name: string)

  /**
   * A shipment as the server returns it or as it is synthesised from an offline payload.
   * `id` is optional because a record synthesised from an offline payload copies the payload's
   * `id`, which the app never sets.
   */
  datatype Shipment = Shipment(
    id: Option<string>,
    driverInfo: string,
    vehicleNumber: string,
    vehicleBrand: VehicleBrand,
    user: User,
    contract: Contract,
    counterparty: Counterparty,
    product: Product,
    departureTime: string,
    estimatedArrivalTime: string,
    status: Label,
    isActive: bool)

  /**
   * The create-shipment request body (`ShipmentRequest`). The numeric `estimated_arrival_time`
   * is kept as its text; the empty text stands for every falsy number.
   */
  datatype ShipmentRequest = ShipmentRequest(
    id: Option<string>,
    counterpartyBin: string,
    contractId: string,
    driverInfo: string,
    vehicleBrandId: Option<string>,
    vehicleBrand: string,
    vehicleNumber: string,
    departureTime: string,
    estimatedArrivalTime: string,
    userId: string,
    prefix: string,
    productId: Option<string>)

  /** The text JavaScript produces for an optional id inside a template string. */
  function IdText(id: Option<string>): string
  {
    match id
    case Some(s) => s
    case None => "undefined"
  }
}

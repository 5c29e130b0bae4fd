/** The storefront's records (src/types/Index.ts) that the modelled code reads
    and builds. Money is a `real`; dates, images, reviews and availability
    slots, which no modelled rule reads, are omitted. */
module Types {
  import opened Wrappers

  datatype Service = Service(
    id: string,
    name: string,
    description: string,
    price: real,
    category: string,
    rating: real,
    providerId: Option<string>)

  /** One cart line. `notes` and `appliedDiscount` are optional in the source
      (`notes?`, `appliedDiscount?`). */
  datatype CartItem = CartItem(
    service: Service,
    quantity: int,
    notes: Option<string>,
    appliedDiscount: Option<real>)

  /** A saved cart snapshot; `savedAt` (a clock reading) is not modelled. */
  datatype SavedCart = SavedCart(
    id: string,
    name: string,
    items: seq<CartItem>,
    promoCode: Option<string>,
    promoDiscount: real)

  datatype PromoCodeResult = PromoCodeResult(valid: bool, discount: real, message: string)

  datatype ServiceProvider = ServiceProvider(
    id: string,
    name: string,
    description: string,
    rating: real,
    specialties: seq<string>,
    services: seq<string>)

  datatype OrderItem = OrderItem(
    serviceId: string,
    serviceName: string,
    quantity: int,
    price: real,
    providerId: string,
    providerName: string)

  datatype PaymentType = CreditCard | PayPal | BankTransfer | Cash

  datatype PaymentDetails = PaymentDetails(
    cardNumber: Option<string>,
    cardholderName: Option<string>,
    expiryDate: Option<string>,
    cvv: Option<string>,
    accountNumber: Option<string>,
    routingNumber: Option<string>,
    paypalEmail: Option<string>)

  /** `isDefault?` is optional in the source; an absent flag reads as false
      everywhere it is tested, so the model keeps a plain boolean. */
  datatype PaymentMethod = PaymentMethod(
    id: string,
    kind: PaymentType,
    details: PaymentDetails,
    isDefault: bool)

  datatype Address = Address(
    id: Option<string>,
    fullName: string,
    email: string,
    address: string,
    city: string,
    state: string,
    zipCode: string,
    isDefault: bool)

  datatype CustomizationOption = CustomizationOption(id: string, name: string, priceAdjustment: real)

  datatype ServiceCustomization = ServiceCustomization(
    id: string,
    name: string,
    options: seq<CustomizationOption>,
    selectedOption: Option<CustomizationOption>,
    required: bool)

  /** Some element of `list` carries service id `id` (`list.some(s => s.id === id)`). */
  predicate HasServiceId(list: seq<Service>, id: string)
  {
    exists i :: 0 <= i < |list| && list[i].id == id
  }

  /** No two elements of `list` share a service id. */
  predicate UniqueServiceIds(list: seq<Service>)
  {
    forall i, j :: 0 <= i < j < |list| ==> list[i].id != list[j].id
  }

  /** The test `list.filter(s => s.id !== id)` applies: keep services other than `id`. */
  function OtherThan(id: string): Service -> bool
  {
    (s: Service) => s.id != id
  }
}

/** The application's records. Optional fields (`x?: T`, `T | null`) become
    `Option`; fields no modelled logic reads (avatars, logos, descriptions,
    labels, category ids) are left out. `Product` and `CartLine` carry the
    weighed-product fields `isWeighted` and `pricePerKg` that the point of
    sale and the catalog pages use although the shared interfaces do not
    declare them. */
module Types {
  import opened Wrappers

  datatype Role = Owner | Administrador | Cajero

  /** The role's spelling in the type union and in local storage. */
  function RoleName(r: Role): string {
    match r
    case Owner => "OWNER"
    case Administrador => "ADMINISTRADOR"
    case Cajero => "CAJERO"
  }

  /** Reading a role back from its spelling; any other text names no role. */
  function RoleNamed(s: string): (r: Option<Role>)
    ensures r.Some? ==> RoleName(r.value) == s
  {
    if s == "OWNER" then Some(Owner)
    else if s == "ADMINISTRADOR" then Some(Administrador)
    else if s == "CAJERO" then Some(Cajero)
    else None
  }

  /** Every role survives being written out and read back. */
  lemma RoleNameRoundTrip(r: Role)
    ensures RoleNamed(RoleName(r)) == Some(r)
  {
  }

  datatype SubscriptionStatus = Active | Expired | Trial | Pending

  datatype PaymentMethod = Cash | Clip | MercadoPago

  datatype User = User(id: string, email: string, name: string, role: Role)

  datatype Branch = Branch(id: string, name: string, address: string, isActive: bool, businessId: string)

  datatype Business = Business(id: string, name: string, shortName: Option<string>)

  datatype Subscription = Subscription(id: string, status: SubscriptionStatus, plan: string, expiresAt: string, credits: int)

  datatype Attribute = Attribute(id: string, name: string, value: string)

  /** A catalog product. `image` is the empty string when there is none;
      money, stock and weights are exact reals. */
  datatype Product = Product(
    id: string,
    name: string,
    price: real,
    sku: Option<string>,
    barcode: Option<string>,
    stock: real,
    isActive: bool,
    category: Option<string>,
    image: string,
    attributes: seq<Attribute>,
    isWeighted: bool,
    pricePerKg: Option<real>)

  /** One line of the cart: units of a discrete product, or one weigh-in in
      kilograms of a weighed product. */
  datatype CartLine = CartLine(product: Product, quantity: real, isWeighted: bool)

  datatype SalePaymentStatus = PaymentPending | Confirmed | PaymentError

  datatype SaleStatus = Completed | Cancelled | Refunded

  datatype Sale = Sale(
    id: string,
    items: seq<CartLine>,
    subtotal: real,
    discount: real,
    total: real,
    paymentMethod: PaymentMethod,
    paymentStatus: SalePaymentStatus,
    branchId: string,
    userId: string,
    createdAt: string,
    ticketNumber: string,
    invoiceNumber: Option<string>,
    status: SaleStatus,
    cancellationReason: Option<string>,
    refundReason: Option<string>)

  /** An audit-log entry; `timestamp` is the instant in milliseconds since
      the epoch that the ISO text of the source denotes. */
  datatype AuditEntry = AuditEntry(
    id: string,
    action: string,
    userId: string,
    userName: string,
    details: string,
    timestamp: int,
    entityType: string,
    entityId: Option<string>)
}

/**
 * The records of the shop's relational store, the error kinds the services
 * raise and the result wrappers they return.
 *
 * Every record that the services soft-delete carries a `deleted` tombstone
 * in place of the nullable deletion timestamp; a record is never erased.
 * Ids are opaque strings; the store keys each table by id.
 */
module Entities {
  import opened Statuses

  type Id = string

  datatype Option<+T> = None | Some(value: T)
  {
    function GetOr(default: T): T
    {
      match this
      case Some(v) => v
      case None => default
    }
  }

  /** The record an error is about (the subject of a not-found response). */
  datatype Entity =
    | ProductRecord
    | CategoryRecord
    | ParentCategory
    | CartRecord
    | CartItemRecord
    | OrderRecord
    | ShippingAddress
    | BillingAddress
    | PaymentRecord
    | AddressRecord
    | WishlistRecord

  /** Why a request was refused as a bad request. */
  datatype Reason =
    | CartEmpty
    | ProductNotAvailable
    | StockShort
    | LineNotAvailable(productId: Id)
    | LineStockShort(productId: Id)
    | QuantityBelowOne
    | SkuTaken
    | CategorySlugTaken
    | OwnParent
    | CategoryHasProducts
    | CategoryHasChildren
    | TransitionRejected(from: OrderStatus, to: OrderStatus)
    | NotCancellable
    | PaymentExists
    | OrderNotPending
    | AlreadyConfirmed
    | NotSucceeded
    | CodNotRefundable

  /** The unique indexes of the store that no service checks itself. */
  datatype UniqueKey = ProductSlug | CategorySlug

  datatype Error =
    | NotFound(entity: Entity)
    | BadRequest(reason: Reason)
    | Duplicate(key: UniqueKey)

  datatype Result<+T> = Ok(value: T) | Err(error: Error)

  /** The result of an operation that returns no value. */
  datatype Outcome = Done | Refused(error: Error)

  datatype Product = Product(
    name: string,
    slug: string,
    sku: string,
    description: Option<string>,
    price: real,
    compareAtPrice: Option<real>,
    stock: int,
    isActive: bool,
    isFeatured: bool,
    categoryId: Id,
    vendorId: Option<Id>,
    deleted: bool)

  /** The fields `update` may change; `None` leaves a field as it is. */
  datatype ProductPatch = ProductPatch(
    name: Option<string>,
    slug: Option<string>,
    description: Option<string>,
    price: Option<real>,
    compareAtPrice: Option<real>,
    stock: Option<int>,
    isActive: Option<bool>,
    isFeatured: Option<bool>,
    categoryId: Option<Id>,
    vendorId: Option<Id>)

  datatype Category = Category(
    name: string,
    slug: string,
    parentId: Option<Id>,
    isActive: bool,
    deleted: bool)

  datatype CategoryPatch = CategoryPatch(
    name: Option<string>,
    slug: Option<string>,
    parentId: Option<Id>,
    isActive: Option<bool>)

  datatype CartItem = CartItem(cartId: Id, productId: Id, quantity: int, deleted: bool)

  /** A cart item joined with its product, as the cart and order queries load it. */
  datatype CartLine = CartLine(itemId: Id, item: CartItem, product: Product)

  /** An order line: the price is the product's price when the order was placed. */
  datatype OrderItem = OrderItem(productId: Id, quantity: int, price: real, total: real)

  datatype Order = Order(
    orderNumber: string,
    userId: Id,
    status: OrderStatus,
    subtotal: real,
    tax: real,
    shippingCost: real,
    discount: real,
    total: real,
    shippingAddressId: Id,
    billingAddressId: Id,
    notes: Option<string>,
    items: seq<OrderItem>,
    deleted: bool)

  datatype Payment = Payment(
    orderId: Id,
    amount: real,
    currency: string,
    status: PaymentStatus,
    paidBy: PaymentMethod,
    externalId: Option<string>,
    deleted: bool)

  datatype AddressDetails = AddressDetails(
    fullName: string,
    phone: string,
    addressLine1: string,
    addressLine2: Option<string>,
    city: string,
    state: string,
    postalCode: string,
    country: Option<string>)

  datatype Address = Address(userId: Id, details: AddressDetails, isDefault: bool, deleted: bool)

  datatype AddressPatch = AddressPatch(
    fullName: Option<string>,
    phone: Option<string>,
    addressLine1: Option<string>,
    addressLine2: Option<string>,
    city: Option<string>,
    state: Option<string>,
    postalCode: Option<string>,
    country: Option<string>,
    isDefault: Option<bool>)

  datatype WishlistItem = WishlistItem(userId: Id, productId: Id, deleted: bool)

  /** One page of a listing, with the counts the listing endpoints report. */
  datatype Page = Page(data: seq<Id>, total: nat, page: int, pageSize: int, totalPages: nat)
}

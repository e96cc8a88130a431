/**
 * The rows of the relational store, one datatype per table, with the
 * enumerations the schema declares. Amounts are integer cents (the columns
 * are DECIMAL(10,2)).
 */
module Entities {
  import opened Common

  datatype CartStatus = CartActive | CartCompleted | CartAbandoned

  datatype OrderStatus =
    | OrderPending | OrderProcessing | OrderConfirmed
    | OrderShipped | OrderDelivered | OrderCancelled

  datatype PaymentStatus =
    | PayPending | PayProcessing | PayCompleted | PayFailed | PayRefunded

  datatype PaymentMethod = Cash | Card | Online | Wallet

  datatype Cart = Cart(userId: Id, status: CartStatus, totalAmount: int)

  datatype CartItem = CartItem(
    cartId: Id, productId: Id, variantId: Option<Id>,
    quantity: int, price: int, subtotal: int)

  /** The shipping address object of a checkout request. */
  datatype Address = Address(street: string, city: string, state: string, zip: string, country: string)

  datatype Order = Order(
    userId: Id, cartId: Id, orderNumber: string, status: OrderStatus,
    totalAmount: int, shippingAddress: Option<Address>, paymentStatus: PaymentStatus)

  datatype OrderItem = OrderItem(
    orderId: Id, productId: Id, variantId: Option<Id>,
    quantity: int, price: int, subtotal: int)

  datatype Payment = Payment(
    orderId: Id, userId: Id, amount: int, paymentMethod: PaymentMethod,
    status: PaymentStatus, transactionId: Option<string>)

  /** A bcrypt digest, modelled as an ideal hash: it records what was hashed
      and with which salt, and comparing succeeds exactly for that text. */
  datatype Digest = Bcrypt(plain: string, salt: nat)

  predicate BcryptCompare(plain: string, d: Digest)
  {
    d.plain == plain
  }

  datatype User = User(
    name: string, email: string, phone: Option<string>,
    password: Digest, isSuperAdmin: bool)

  datatype OtpChannel = ByEmail | ByPhone

  datatype Otp = Otp(
    userId: Option<Id>, email: Option<string>, phone: Option<string>,
    otpHash: Digest, channel: OtpChannel, expiresAt: int, isUsed: bool)

  datatype Product = Product(
    name: string, desc: Option<string>, isVariable: Option<bool>, isActive: Option<bool>,
    price: Option<int>, purchasePrice: Option<int>, profitMargin: Option<int>,
    stock: Option<int>)

  datatype Variant = Variant(productId: Id, variantsName: string, value: string, price: int, sku: string)
}

/** The records the backend stores (the pydantic models of backend/server.py),
    with prices in whole rupees. Timestamps are not modelled. */
module Models {
  import opened Common

  datatype User = User(id: string, email: string, name: string, phone: Option<string>)

  datatype Product = Product(
    id: string,
    name: string,
    description: string,
    price: int,
    offerPrice: Option<int>,
    category: string,
    concern: Option<string>,
    images: seq<string>,
    rating: real,
    reviewCount: int,
    ingredients: Option<string>,
    howToUse: Option<string>,
    inStock: bool)

  /** One cart line. The backend does not validate the quantity. */
  datatype CartItem = CartItem(productId: string, quantity: int)

  datatype Address = Address(
    id: string,
    userId: string,
    name: string,
    phone: string,
    addressLine1: string,
    addressLine2: Option<string>,
    city: string,
    state: string,
    pincode: string,
    isDefault: bool)

  /** The snapshot of a cart line that the checkout page sends; name and
      price are absent when the line's product was not resolved. */
  datatype OrderItem = OrderItem(productId: string, productName: Option<string>, quantity: int, price: Option<int>)

  /** The body of `POST /orders`. */
  datatype OrderRequest = OrderRequest(items: seq<OrderItem>, totalAmount: int, address: Address, paymentMethod: string)

  datatype Order = Order(
    id: string,
    userId: string,
    items: seq<OrderItem>,
    totalAmount: int,
    address: Address,
    paymentMethod: string,
    paymentStatus: string,
    orderStatus: string)

  /** Field defaults of the Order model. */
  const DefaultPaymentStatus: string := "pending"
  const InitialOrderStatus: string := "placed"
}

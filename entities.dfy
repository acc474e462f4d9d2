/** The records the frontend exchanges with the backend. Prices, stock and
    quantities are whole numbers (Rupiah and units). */
module Entities {
  import opened Remote

  datatype Material = Material(
    id: string,
    code: string,
    name: string,
    hazardClass: string,
    hazardLevel: int,
    price: int,
    stock: int,
    desc: string)

  /** One line of the remote cart; `material` is the server's denormalised copy. */
  datatype CartItem = CartItem(
    id: string,
    materialId: string,
    material: Material,
    quantity: int,
    subtotal: int)

  /** The cart resource as fetched; `items` may be missing from the reply. */
  datatype CartSummary = CartSummary(items: Option<seq<CartItem>>, total: int)

  datatype User = User(id: string, name: string, email: string)

  /** The two radio buttons of the checkout form; nothing else can be chosen. */
  datatype DeliveryType = Supply | Buy

  datatype OrderLine = OrderLine(materialId: string, quantity: int)

  /** The body of `ordersAPI.createOrder`. */
  datatype OrderRequest = OrderRequest(
    deliveryType: DeliveryType,
    deliveryAddress: string,
    notes: string,
    items: seq<OrderLine>)

  datatype Order = Order(id: string)
}

/** The records of the storefront, after the TypeScript types of the client.
    Numbers are integers; dates are timestamps in milliseconds. */
module Types {
  import opened Outcomes

  datatype Role = Admin | User

  /** One line of the cart. */
  datatype CartItem = CartItem(id: int, name: string, picture: string, price: int, quantity: int)

  datatype Product = Product(
    id: int,
    name: string,
    description: string,
    price: int,
    stocks: int,
    picture: string,
    createdAt: int,
    updatedAt: int,
    deletedAt: int,
    status: bool)

  /** A locally recorded order. The email is read from stored data that may
      lack it, so it is optional. */
  datatype Order = Order(id: int, email: Option<string>, cart: seq<CartItem>, total: int, createdAt: int)

  /** One row of the per-user order summary: `cart` is a number of items. */
  datatype GroupedOrders = GroupedOrders(email: string, cart: int, total: int)

  /** A page of a listing as the server returns it: the rows and the number of
      rows over all pages. */
  datatype Listing<+T> = Listing(items: seq<T>, total: nat)
}

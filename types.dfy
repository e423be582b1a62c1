/** Values exchanged between the screens and the remote authority. Numeric fields
    that the source reads with `Number(...)` are kept as `int`. */
module Types {

  datatype Option<T> = None | Some(value: T)

  /** The editable part of a product (the `EditProductData` shape). */
  datatype ProductData = ProductData(
    title: string,
    price: int,
    description: string,
    category: string,
    image: string)

  /** A product as listed by the remote authority; only the fields the
      synchroniser relies on are kept. */
  datatype Product = Product(id: int, data: ProductData)

  /** A user as listed by the remote authority (display-only fields dropped). */
  datatype User = User(id: int, username: string, email: string)

  /** One cart line: `{productId, quantity}`. */
  datatype CartItem = CartItem(productId: int, quantity: int)

  /** The editable part of a cart (the `CartDataType` shape). */
  datatype CartData = CartData(userId: int, date: string, products: seq<CartItem>)

  /** A cart as listed by the remote authority. */
  datatype Cart = Cart(id: int, data: CartData)

  /** The login form's draft. */
  datatype LoginData = LoginData(username: string, password: string)

  /** The dashboard summary returned by the general-data endpoint. */
  datatype Dashboard = Dashboard(
    totalProducts: int,
    totalCategories: int,
    totalOrders: int,
    totalUsers: int)

  /** The `id` search parameter: its text, and the number `Number(text)` reads
      from it when the text is non-empty (an empty text reads as 0 whatever
      `number` holds). */
  datatype QueryId = QueryId(text: string, number: int)

  /** JavaScript truthiness of the nullable `id` search parameter. */
  predicate IdPresent(id: Option<QueryId>)
  {
    id.Some? && id.value.text != []
  }

  /** `Number(id)` for the nullable parameter: `Number(null)` and `Number("")`
      are both 0, so an id the `if (id)` guard refuses reads as 0. */
  function IdNumber(id: Option<QueryId>): (n: int)
    ensures !IdPresent(id) ==> n == 0
    ensures IdPresent(id) ==> n == id.value.number
  {
    match id
    case None => 0
    case Some(q) => if q.text == [] then 0 else q.number
  }

  /** The calls a screen can issue against the remote authority. */
  datatype Call =
    | GetAllProducts
    | GetProduct(productId: int)
    | CreateProduct(product: ProductData)
    | UpdateProduct(productId: int, product: ProductData)
    | RemoveProduct(productId: int)
    | GetAllUsers
    | RemoveUser(userId: int)
    | GetAllCarts
    | GetCart(cartId: int)
    | CreateCartItem(cart: CartData)
    | UpdateCartItems(cartId: int, cart: CartData)
    | RemoveCart(cartId: int)
    | UserLogin(credentials: LoginData)
    | CreateUserSession(token: string)
    | GetGeralData
}

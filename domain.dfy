/** The domain records the entity implementations manage, with their create
    payloads, patches and custom actions. */
module Domain {
  import opened Base

  datatype User = User(id: string, name: string, email: string)

  datatype UserCreate = UserCreate(name: string, email: string)

  /** A partial update: `None` leaves a field as it is. */
  datatype UserPatch = UserPatch(name: Option<string>, email: Option<string>)

  /** The update parameters of the later generation have the patch's shape. */
  type UserUpdate = UserPatch

  /** `User::new`: the id is left empty for the service to fill in. */
  function NewUser(name: string, email: string): (u: User)
    ensures u.id == "" && u.name == name && u.email == email
  {
    User("", name, email)
  }

  datatype Product = Product(id: string, name: string, price: F64, quantity: U32)

  /** `Product::new`. */
  function NewProduct(id: string, name: string, price: F64, quantity: U32): (p: Product)
    ensures p.id == id && p.name == name && p.price == price && p.quantity == quantity
  {
    Product(id, name, price, quantity)
  }

  datatype ProductCreate = ProductCreate(name: string, price: F64, quantity: U32)

  datatype ProductPatch = ProductPatch(price: Option<F64>, quantity: Option<U32>)

  type ProductUpdate = ProductPatch

  /** Product's custom actions and their results, one result kind per action. */
  datatype ProductAction = CheckStock | ReserveStock(amount: U32)

  datatype ProductActionResult = StockLevel(level: U32) | Reserved

  datatype Order = Order(id: string, userId: string, productId: string, quantity: U32, total: F64, status: string)

  datatype OrderCreate = OrderCreate(userId: string, productId: string, quantity: U32, total: F64)

  /** `Order::new`: every order starts in status "Created". */
  function NewOrder(id: string, userId: string, productId: string, quantity: U32, total: F64): (o: Order)
    ensures o.id == id && o.userId == userId && o.productId == productId
    ensures o.quantity == quantity && o.total == total && o.status == "Created"
  {
    Order(id, userId, productId, quantity, total, "Created")
  }
}

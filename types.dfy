/** Entities shared by the food-ordering front end (src/types/index.ts)
    and the cart line of the cart store (src/context/CartContext.tsx). */
module Types {

  datatype Option<T> = None | Some(value: T) {
    function GetOr(default: T): T {
      match this
      case Some(v) => v
      case None => default
    }
  }

  /** The three roles a signed-in principal can have. */
  datatype Role = Customer | Provider | Admin

  /** A provider's shop profile, as attached to a user or listed on the providers page.
      The nested `meals` list is not part of this model. */
  datatype ProviderProfile = ProviderProfile(
    id: string,
    userId: string,
    shopName: string,
    address: string,
    cuisine: Option<string>,
    rating: real)

  datatype User = User(
    id: string,
    name: string,
    email: string,
    role: Role,
    isActive: bool,
    providerProfile: Option<ProviderProfile>)

  /** A meal; price is a whole amount of money, averageRating a fractional score.
      The nested `category` and `provider` objects are display-only and left out. */
  datatype Meal = Meal(
    id: string,
    title: string,
    description: Option<string>,
    price: int,
    image: Option<string>,
    categoryId: string,
    providerId: string,
    isAvailable: bool,
    averageRating: Option<real>)

  /** The order workflow's five states. */
  datatype OrderStatus = Placed | Preparing | Ready | Delivered | Cancelled

  /** The status as the API spells it. */
  function StatusName(s: OrderStatus): string {
    match s
    case Placed => "PLACED"
    case Preparing => "PREPARING"
    case Ready => "READY"
    case Delivered => "DELIVERED"
    case Cancelled => "CANCELLED"
  }

  /** A status filter: `"ALL"` or one status. */
  datatype StatusFilter = All | Only(status: OrderStatus) {
    predicate Admits(s: OrderStatus) {
      this.All? || this.status == s
    }
  }

  datatype OrderItem = OrderItem(
    id: string,
    orderId: string,
    mealId: string,
    quantity: int,
    price: int,
    meal: Meal)

  /** The customer summary an order may carry. */
  datatype OrderUser = OrderUser(name: string, email: string)

  datatype Order = Order(
    id: string,
    userId: string,
    status: OrderStatus,
    address: string,
    totalAmount: int,
    createdAt: string,
    orderItems: seq<OrderItem>,
    user: Option<OrderUser>)

  datatype Review = Review(
    id: string,
    userId: string,
    mealId: string,
    rating: int,
    comment: Option<string>,
    createdAt: string,
    userName: Option<string>)

  /** A cart line: the meal spread into the line plus the selected quantity. */
  datatype CartLine = CartLine(meal: Meal, quantity: int) {
    function Id(): string { meal.id }
    function Price(): int { meal.price }
  }
}

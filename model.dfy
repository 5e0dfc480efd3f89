/**
 * The entity records mirrored from the backend, and the shapes in which the outside world
 * (repositories, Double arithmetic) enters the model.
 */
module Model {
  import opened Wrappers
  import opened KotlinText

  /** Order status. */
  datatype Status = PENDING | COMPLETED | CANCELLED

  /**
   * An order. The order-creation screen builds orders with a table number and without a
   * creation time, so the time is optional here.
   */
  datatype Order = Order(id: int, orderTime: Option<string>, status: Status, tableNumber: int)

  /** A menu entry; prices are Kotlin Doubles, modelled as exact reals. */
  datatype MenuItem = MenuItem(description: string, id: int, name: string, price: real)

  /** A line of an order, denormalising the menu item's name and price. */
  datatype OrderItem = OrderItem(
    menuItemId: int,
    menuItemName: string,
    menuItemPrice: real,
    orderId: int,
    quantity: Int32,
    specialInstructions: string,
    subtotal: real)

  /** menuItemPrice * quantity, the subtotal every screen stores with an order item. */
  function Subtotal(price: real, quantity: int): real
  {
    price * quantity as real
  }

  /**
   * What one repository call did: it returned a value or null, or it threw an exception
   * whose message may be null.
   */
  datatype Outcome<T> = Returned(result: Option<T>) | Threw(message: Option<string>)

  /** String.toDoubleOrNull() and Double.toString(), kept abstract and supplied by the caller. */
  datatype DoubleFormat = DoubleFormat(parse: string -> Option<real>, render: real -> string)

  /** The one fact of toDoubleOrNull() the model relies on: blank text is not a number. */
  type DoubleText = d: DoubleFormat | forall s :: IsBlank(s) ==> d.parse(s).None?
    witness DoubleFormat(s => None, x => "0.0")

  /** What a detail screen's content area shows. */
  datatype Content<T> = LoadingIndicator | NotFound | EditForm(item: T)

  /**
   * Content selection of the two editors: the form whenever the fetched entity is present;
   * without one, a loading indicator before the form was ever filled and "not found" after.
   */
  function ContentFor<T>(item: Option<T>, isInitialized: bool): (c: Content<T>)
    ensures c.EditForm? <==> item.Some?
    ensures c.EditForm? ==> c.item == item.value
    ensures c.LoadingIndicator? <==> item.None? && !isInitialized
    ensures c.NotFound? <==> item.None? && isInitialized
  {
    if item.None? && !isInitialized then LoadingIndicator
    else if item.None? && isInitialized then NotFound
    else EditForm(item.value)
  }
}

/**
 * OrderItemViewModel: the observable cells of the order-item screens, including the one
 * fetch that tracks a loading flag and an error message.
 */
module OrderItemViewModels {
  import opened Wrappers
  import opened KotlinText
  import opened Model

  const UNKNOWN_ERROR: string := "Unknown error"
  const CANT_LOAD_PREFIX: string := "Cant load order items for order ID "

  /** The message published when the repository returns null for an order's items. */
  function CantLoadMessage(orderId: Int32): (m: string)
    ensures |m| > |CANT_LOAD_PREFIX| && m[..|CANT_LOAD_PREFIX|] == CANT_LOAD_PREFIX
    ensures ToIntOrNull(m[|CANT_LOAD_PREFIX|..]) == Some(orderId as int)
  {
    var m := CANT_LOAD_PREFIX + IntToString(orderId);
    assert m[|CANT_LOAD_PREFIX|..] == IntToString(orderId);
    ParseIntToString(orderId, INT_MIN, INT_MAX);
    m
  }

  /** Snapshot of every LiveData cell of the view model. */
  datatype OrderItemCells = OrderItemCells(
    orderItems: Option<seq<OrderItem>>,
    orderItem: Option<OrderItem>,
    orderItemsByOrderId: Option<seq<OrderItem>>,
    orderItemsByMenuItemId: Option<seq<OrderItem>>,
    createOrderItemResult: Option<OrderItem>,
    updateOrderItemResult: Option<OrderItem>,
    deleteOrderItemResult: Option<bool>,
    showAddScreen: Option<bool>,
    isLoading: bool,
    errorMessage: Option<string>)

  /**
   * The view model. Each field is one LiveData cell (None is a null value); the coroutine of
   * fetchOrderItemsByOrderId is split at its repository call into a Start and a Finish step.
   */
  class OrderItemViewModel {
    var orderItems: Option<seq<OrderItem>>
    var orderItem: Option<OrderItem>
    var orderItemsByOrderId: Option<seq<OrderItem>>
    var orderItemsByMenuItemId: Option<seq<OrderItem>>
    var createOrderItemResult: Option<OrderItem>
    var updateOrderItemResult: Option<OrderItem>
    var deleteOrderItemResult: Option<bool>
    var showAddScreen: Option<bool>
    var isLoading: bool
    var errorMessage: Option<string>

    function Cells(): OrderItemCells
      reads this
    {
      OrderItemCells(orderItems, orderItem, orderItemsByOrderId, orderItemsByMenuItemId,
                     createOrderItemResult, updateOrderItemResult, deleteOrderItemResult,
                     showAddScreen, isLoading, errorMessage)
    }

    /** Every cell starts out null, except the loading flag, which starts out false. */
    constructor ()
      ensures Cells() == OrderItemCells(None, None, None, None, None, None, None, None, false, None)
    {
      orderItems, orderItem, orderItemsByOrderId, orderItemsByMenuItemId := None, None, None, None;
      createOrderItemResult, updateOrderItemResult, deleteOrderItemResult := None, None, None;
      showAddScreen, isLoading, errorMessage := None, false, None;
    }

    method OnAdd()
      modifies this
      ensures Cells() == old(Cells()).(showAddScreen := Some(true))
    {
      showAddScreen := Some(true);
    }

    method OnAddScreenShown()
      modifies this
      ensures Cells() == old(Cells()).(showAddScreen := Some(false))
    {
      showAddScreen := Some(false);
    }

    method FetchOrderItems(result: Option<seq<OrderItem>>)
      modifies this
      ensures Cells() == old(Cells()).(orderItems := result)
    {
      orderItems := result;
    }

    method FetchOrderItemByIds(orderId: Int32, menuItemId: Int32, result: Option<OrderItem>)
      modifies this
      ensures Cells() == old(Cells()).(orderItem := result)
    {
      orderItem := result;
    }

    method FetchOrderItemsByMenuItemId(menuItemId: Int32, result: Option<seq<OrderItem>>)
      modifies this
      ensures Cells() == old(Cells()).(orderItemsByMenuItemId := result)
    {
      orderItemsByMenuItemId := result;
    }

    /** First step of fetchOrderItemsByOrderId: loading is on and the error is cleared while the call runs. */
    method StartFetchOrderItemsByOrderId()
      modifies this
      ensures Cells() == old(Cells()).(isLoading := true, errorMessage := None)
    {
      isLoading := true;
      errorMessage := None;
    }

    /**
     * Second step of fetchOrderItemsByOrderId: a list is stored; null leaves the list and sets
     * the "cant load" message; an exception sets its message (or "Unknown error") and empties
     * the list. Every outcome ends with loading off.
     */
    method FinishFetchOrderItemsByOrderId(orderId: Int32, outcome: Outcome<seq<OrderItem>>)
      modifies this
      ensures outcome.Returned? && outcome.result.Some? ==>
        Cells() == old(Cells()).(orderItemsByOrderId := outcome.result, isLoading := false)
      ensures outcome.Returned? && outcome.result.None? ==>
        Cells() == old(Cells()).(errorMessage := Some(CantLoadMessage(orderId)), isLoading := false)
      ensures outcome.Threw? ==>
        Cells() == old(Cells()).(errorMessage := Some(outcome.message.GetOr(UNKNOWN_ERROR)),
                                 orderItemsByOrderId := Some([]), isLoading := false)
    {
      match outcome {
        case Returned(result) =>
          if result.Some? {
            orderItemsByOrderId := result;
          } else {
            errorMessage := Some(CantLoadMessage(orderId));
          }
        case Threw(message) =>
          errorMessage := Some(message.GetOr(UNKNOWN_ERROR));
          orderItemsByOrderId := Some([]);
      }
      // finally
      isLoading := false;
    }

    /**
     * fetchOrderItemsByOrderId as a whole: loading ends off; the error is set exactly when no
     * list came back; the list cell holds the fetched list, the old list (on null), or the
     * empty list (on an exception).
     */
    method FetchOrderItemsByOrderId(orderId: Int32, outcome: Outcome<seq<OrderItem>>)
      modifies this
      ensures !isLoading
      ensures errorMessage.None? <==> (outcome.Returned? && outcome.result.Some?)
      ensures orderItemsByOrderId ==
        match outcome
        case Returned(Some(items)) => Some(items)
        case Returned(None) => old(orderItemsByOrderId)
        case Threw(_) => Some([])
      ensures Cells() == old(Cells()).(orderItemsByOrderId := orderItemsByOrderId,
                                       errorMessage := errorMessage, isLoading := false)
    {
      StartFetchOrderItemsByOrderId();
      FinishFetchOrderItemsByOrderId(orderId, outcome);
    }

    method CreateOrderItem(item: OrderItem, result: Option<OrderItem>)
      modifies this
      ensures Cells() == old(Cells()).(createOrderItemResult := result)
    {
      createOrderItemResult := result;
    }

    method UpdateOrderItem(orderId: Int32, menuItemId: Int32, item: OrderItem, result: Option<OrderItem>)
      modifies this
      ensures Cells() == old(Cells()).(updateOrderItemResult := result)
    {
      updateOrderItemResult := result;
    }

    method ResetUpdateOrderItemResult()
      modifies this
      ensures Cells() == old(Cells()).(updateOrderItemResult := None)
    {
      updateOrderItemResult := None;
    }

    method DeleteOrderItem(orderId: Int32, menuItemId: Int32, result: bool)
      modifies this
      ensures Cells() == old(Cells()).(deleteOrderItemResult := Some(result))
    {
      deleteOrderItemResult := Some(result);
    }
  }
}

/**
 * OrderViewModel: the observable cells of the orders screen and the live-update upsert that
 * merges an order pushed by the message broker into the in-memory list.
 */
module OrderViewModels {
  import opened Wrappers
  import opened Model

  const CREATE_FAILED_MESSAGE: string := "No se pudo crear la orden. Verifica la conexión o los datos."
  const CREATE_EXCEPTION_FALLBACK: string := "Error inesperado al crear la orden"

  /** List.indexOfFirst { it.id == id }: the first position holding that id, or -1. */
  function IndexOfFirst(orders: seq<Order>, id: int): (k: int)
    ensures -1 <= k < |orders|
    ensures k == -1 <==> forall j :: 0 <= j < |orders| ==> orders[j].id != id
    ensures 0 <= k ==> orders[k].id == id && forall j :: 0 <= j < k ==> orders[j].id != id
  {
    if orders == [] then -1
    else if orders[0].id == id then 0
    else
      var k := IndexOfFirst(orders[1..], id);
      if k == -1 then -1 else k + 1
  }

  /** The list addOrUpdateOrder publishes, given the current list and the pushed order. */
  function Upsert(orders: seq<Order>, order: Order): (r: seq<Order>)
    ensures order in r
    ensures |orders| <= |r| <= |orders| + 1
  {
    var k := IndexOfFirst(orders, order.id);
    if k != -1 then
      assert orders[k := order][k] == order;
      orders[k := order]
    else [order] + orders
  }

  /**
   * When position k holds the first order with the pushed order's id, exactly that entry is
   * replaced: the length is kept and every other position, later duplicates included, is unchanged.
   */
  lemma UpsertReplacesFirstMatch(orders: seq<Order>, order: Order, k: nat)
    requires k < |orders| && orders[k].id == order.id
    requires forall j :: 0 <= j < k ==> orders[j].id != order.id
    ensures |Upsert(orders, order)| == |orders|
    ensures Upsert(orders, order)[k] == order
    ensures forall j :: 0 <= j < |orders| && j != k ==> Upsert(orders, order)[j] == orders[j]
  {
    IndexOfFirstIsFirstMatch(orders, order.id, k);
  }

  /** When no order has that id, the pushed order goes in front of the old list, kept in order. */
  lemma UpsertInsertsAtFront(orders: seq<Order>, order: Order)
    requires forall j :: 0 <= j < |orders| ==> orders[j].id != order.id
    ensures Upsert(orders, order) == [order] + orders
    ensures |Upsert(orders, order)| == |orders| + 1
  {
  }

  /** The position characterised as the first with that id is the one IndexOfFirst returns. */
  lemma IndexOfFirstIsFirstMatch(orders: seq<Order>, id: int, k: nat)
    requires k < |orders| && orders[k].id == id
    requires forall j :: 0 <= j < k ==> orders[j].id != id
    ensures IndexOfFirst(orders, id) == k
  {
    var i := IndexOfFirst(orders, id);
    assert i != -1 by { assert orders[k].id == id; }
  }

  /** A null or empty list becomes exactly the pushed order. */
  lemma UpsertIntoEmpty(order: Order)
    ensures Upsert([], order) == [order]
  {
    assert [order] + [] == [order];
  }

  /**
   * Afterwards the list holds the pushed order; every old entry survives unless it was the
   * replaced one (which had the pushed order's id); nothing else appears.
   */
  lemma UpsertContents(orders: seq<Order>, order: Order)
    ensures order in Upsert(orders, order)
    ensures forall j :: 0 <= j < |orders| && orders[j].id != order.id ==> orders[j] in Upsert(orders, order)
    ensures forall p :: p in Upsert(orders, order) ==> p == order || p in orders
  {
    var r := Upsert(orders, order);
    var k := IndexOfFirst(orders, order.id);
    if k != -1 {
      assert r[k] == order;
      forall j | 0 <= j < |orders| && orders[j].id != order.id ensures orders[j] in r {
        assert r[j] == orders[j];
      }
      forall p | p in r ensures p == order || p in orders {
        var i :| 0 <= i < |r| && r[i] == p;
        if i != k { assert p == orders[i]; }
      }
    } else {
      assert r[0] == order;
      forall j | 0 <= j < |orders| ensures orders[j] in r {
        assert r[j + 1] == orders[j];
      }
    }
  }

  /** Pushing the same order twice leaves the list as the first push left it. */
  lemma UpsertIdempotent(orders: seq<Order>, order: Order)
    ensures Upsert(Upsert(orders, order), order) == Upsert(orders, order)
  {
    var r := Upsert(orders, order);
    var k := IndexOfFirst(orders, order.id);
    if k != -1 {
      IndexOfFirstIsFirstMatch(r, order.id, k);
    } else {
      IndexOfFirstIsFirstMatch(r, order.id, 0);
    }
  }

  /** Snapshot of every LiveData cell of the view model. */
  datatype OrderCells = OrderCells(
    orders: Option<seq<Order>>,
    order: Option<Order>,
    createOrderResult: Option<Order>,
    createOrderError: Option<string>,
    updateOrderResult: Option<Order>,
    deleteOrderResult: Option<bool>,
    showAddScreen: Option<bool>)

  /**
   * The view model. Each field is one LiveData cell (None is a null value); a coroutine that
   * suspends on a repository call is split into a Start and a Finish step, and the repository's
   * outcome is an argument of the Finish step.
   */
  class OrderViewModel {
    var orders: Option<seq<Order>>
    var order: Option<Order>
    var createOrderResult: Option<Order>
    var createOrderError: Option<string>
    var updateOrderResult: Option<Order>
    var deleteOrderResult: Option<bool>
    var showAddScreen: Option<bool>

    function Cells(): OrderCells
      reads this
    {
      OrderCells(orders, order, createOrderResult, createOrderError, updateOrderResult,
                 deleteOrderResult, showAddScreen)
    }

    /** Every cell starts out holding no value. */
    constructor ()
      ensures Cells() == OrderCells(None, None, None, None, None, None, None)
    {
      orders, order := None, None;
      createOrderResult, createOrderError := None, None;
      updateOrderResult, deleteOrderResult, showAddScreen := None, None, None;
    }

    method OnAdd()
      modifies this
      ensures Cells() == old(Cells()).(showAddScreen := Some(true))
    {
      showAddScreen := Some(true);
    }

    method OnAddScreenShown()
      modifies this
      ensures Cells() == old(Cells()).(showAddScreen := Some(false))
    {
      showAddScreen := Some(false);
    }

    /** fetchOrders and fetchActiveOrders: the repository's list, or null, is published as is. */
    method FetchOrders(result: Option<seq<Order>>)
      modifies this
      ensures Cells() == old(Cells()).(orders := result)
    {
      orders := result;
    }

    method FetchOrderById(id: int, result: Option<Order>)
      modifies this
      ensures Cells() == old(Cells()).(order := result)
    {
      order := result;
    }

    /** First step of createOrder, before the repository call: both cells are cleared. */
    method StartCreateOrder()
      modifies this
      ensures Cells() == old(Cells()).(createOrderResult := None, createOrderError := None)
    {
      createOrderError := None;
      createOrderResult := None;
    }

    /** Second step of createOrder: the repository's outcome lands in exactly one of the two cells. */
    method FinishCreateOrder(outcome: Outcome<Order>)
      modifies this
      ensures outcome.Returned? && outcome.result.Some? ==>
        Cells() == old(Cells()).(createOrderResult := outcome.result)
      ensures outcome.Returned? && outcome.result.None? ==>
        Cells() == old(Cells()).(createOrderError := Some(CREATE_FAILED_MESSAGE))
      ensures outcome.Threw? ==>
        Cells() == old(Cells()).(createOrderError := Some(outcome.message.GetOr(CREATE_EXCEPTION_FALLBACK)))
    {
      match outcome {
        case Returned(result) =>
          if result.Some? {
            createOrderResult := result;
          } else {
            createOrderError := Some(CREATE_FAILED_MESSAGE);
          }
        case Threw(message) =>
          createOrderError := Some(message.GetOr(CREATE_EXCEPTION_FALLBACK));
      }
    }

    /**
     * createOrder as a whole: afterwards exactly one of result and error is set, the result
     * only on a non-null repository value; no other cell changes.
     */
    method CreateOrder(newOrder: Order, outcome: Outcome<Order>)
      modifies this
      ensures createOrderResult.Some? <==> createOrderError.None?
      ensures createOrderResult == (if outcome.Returned? then outcome.result else None)
      ensures createOrderError ==
        match outcome
        case Returned(Some(_)) => None
        case Returned(None) => Some(CREATE_FAILED_MESSAGE)
        case Threw(message) => Some(message.GetOr(CREATE_EXCEPTION_FALLBACK))
      ensures Cells() == old(Cells()).(createOrderResult := createOrderResult, createOrderError := createOrderError)
    {
      StartCreateOrder();
      FinishCreateOrder(outcome);
    }

    method ResetCreateOrderResult()
      modifies this
      ensures Cells() == old(Cells()).(createOrderResult := None)
    {
      createOrderResult := None;
    }

    method ResetCreateOrderError()
      modifies this
      ensures Cells() == old(Cells()).(createOrderError := None)
    {
      createOrderError := None;
    }

    method UpdateOrder(id: int, changed: Order, result: Option<Order>)
      modifies this
      ensures Cells() == old(Cells()).(updateOrderResult := result)
    {
      updateOrderResult := result;
    }

    method DeleteOrder(id: int, result: bool)
      modifies this
      ensures Cells() == old(Cells()).(deleteOrderResult := Some(result))
    {
      deleteOrderResult := Some(result);
    }

    /**
     * addOrUpdateOrder: copies the current list (null reads as empty) into a mutable list,
     * replaces the first entry with the pushed order's id or else inserts the order at the
     * front, and publishes the copy. Only the orders cell changes.
     */
    method AddOrUpdateOrder(pushed: Order)
      modifies this
      ensures orders == Some(Upsert(old(orders).GetOr([]), pushed))
      ensures old(orders).None? ==> orders == Some([pushed])
      ensures Cells() == old(Cells()).(orders := orders)
    {
      if orders.None? {
        UpsertIntoEmpty(pushed);
      }
      var current := orders.GetOr([]);
      var existingIndex := IndexOfFirst(current, pushed.id);
      if existingIndex != -1 {
        current := current[existingIndex := pushed];
      } else {
        current := [pushed] + current;
      }
      orders := Some(current);
    }
  }
}
